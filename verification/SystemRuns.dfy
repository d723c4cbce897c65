/** The invariant over whole runs. */
module SystemRuns {
  import opened Results
  import opened Protocol
  import opened Mailbox
  import opened MailboxHistory
  import opened MailboxSafety
  import opened MailboxVersions
  import opened Engine
  import opened EngineFacts
  import opened System
  import opened SystemSafety

  // ---------------------------------------------------------------- A sync cycle

  function CycleOutcome(c: Setup, w: World, side: bool, remote: Option<Exchange>, cycle: Cycle): Outcome {
    Reconcile(w.At(side).self, c.Id(!side), w.At(side).relationship, remote, cycle)
  }

  lemma CycleReconciles(c: Setup, w: World, side: bool, remote: Option<Exchange>, cycle: Cycle, save: SaveOutcome)
    ensures Reconciled(c, w, Next(c, w, CycleStep(side, remote, cycle, save)), side, CycleOutcome(c, w, side, remote, cycle))
    ensures Next(c, w, CycleStep(side, remote, cycle, save)).At(side).relationship == CycleOutcome(c, w, side, remote, cycle).relationship
    ensures Next(c, w, CycleStep(side, remote, cycle, save)).At(!side) == w.At(!side)
  {
    hide Reconcile;
  }

  lemma CycleResultOk(c: Setup, w: World, side: bool, remote: Option<Exchange>, cycle: Cycle, save: SaveOutcome)
    requires Inv(c, w) && Allowed(c, w, CycleStep(side, remote, cycle, save))
    ensures ResultOk(c, Next(c, w, CycleStep(side, remote, cycle, save)), side, w.At(side).self, CycleOutcome(c, w, side, remote, cycle))
  {
    var n := w.At(side);
    var w' := Next(c, w, CycleStep(side, remote, cycle, save));
    CycleReconciles(c, w, side, remote, cycle, save);
    assert n.self.peerId == c.Id(side) && c.Valid() && CopyOk(c, w, side, n.self, n.relationship);
    hide Inv, Readable, Reconciled, Continue, Start, Join, Next;
    if n.relationship.gated || n.relationship.status == Status.Blocked || n.self.enrollment == Enrollment.Retiring {
      ReconciledGrows(c, w, w', side, CycleOutcome(c, w, side, remote, cycle));
      CopyGrows(c, w, w', side, n.self, n.relationship);
    } else if n.relationship.pending.Some? {
      ContinueKeeps(c, w, w', side, remote, cycle);
    } else if side {
      StartKeeps(c, w, w', cycle);
    } else {
      JoinKeeps(c, w, w', remote);
    }
  }

  lemma ReconciledGrows(c: Setup, w: World, w': World, side: bool, out: Outcome)
    requires Reconciled(c, w, w', side, out)
    ensures Grows(w, w') && w'.log == w.log
  {
  }

  /** Only a fresh proposal is added to the proposals of the run. */
  lemma CycleProposes(c: Setup, w: World, remote: Option<Exchange>, cycle: Cycle)
    requires w.initiator.self.peerId == c.initiatorId && c.Valid() && w.initiator.relationship.pending.None?
    ensures var pending := CycleOutcome(c, w, true, remote, cycle).relationship.pending;
            pending.Some? ==>
              var t := pending.value.transcript;
              t.initiatorId == c.initiatorId && t.responderId == c.responderId && t.exchangeId == cycle.exchangeId
  {
    StartFacts(w.initiator.self, c.responderId, w.initiator.relationship, cycle);
    hide Start, PendingShape;
  }

  lemma CycleAdds(c: Setup, w: World, side: bool, remote: Option<Exchange>, cycle: Cycle, save: SaveOutcome)
    ensures var pending := CycleOutcome(c, w, side, remote, cycle).relationship.pending;
            Next(c, w, CycleStep(side, remote, cycle, save)).proposals
            == if side && w.initiator.relationship.pending.None? && pending.Some? then w.proposals + {pending.value.transcript} else w.proposals
  {
    hide Reconcile;
  }

  lemma FreshProposalAdded(c: Setup, w: World, w': World, t: Transcript)
    requires ProposalsInv(c, w) && w'.proposals == w.proposals + {t} && ProposalOk(c, t)
    requires forall u :: u in w.proposals ==> u.exchangeId != t.exchangeId
    ensures ProposalsInv(c, w')
  {
  }

  lemma CycleKeepsProposals(c: Setup, w: World, side: bool, remote: Option<Exchange>, cycle: Cycle, save: SaveOutcome)
    requires Inv(c, w) && Allowed(c, w, CycleStep(side, remote, cycle, save))
    ensures ProposalsInv(c, Next(c, w, CycleStep(side, remote, cycle, save)))
  {
    assert w.initiator.self.peerId == c.initiatorId by { assert NodeInv(c, w, true) && w.At(true) == w.initiator; }
    CycleAdds(c, w, side, remote, cycle, save);
    hide NodeInv, LogInv, MailInv, CycleOutcome, Next, Readable, ProposalsInv;
    var w' := Next(c, w, CycleStep(side, remote, cycle, save));
    var pending := CycleOutcome(c, w, side, remote, cycle).relationship.pending;
    if side && w.initiator.relationship.pending.None? && pending.Some? {
      CycleProposes(c, w, remote, cycle);
      FreshProposalAdded(c, w, w', pending.value.transcript);
    } else {
      SameProposals(c, w, w');
    }
  }

  lemma SameProposals(c: Setup, w: World, w': World)
    requires ProposalsInv(c, w) && w'.proposals == w.proposals
    ensures ProposalsInv(c, w')
  {
  }

  /** Where each part of an endpoint comes from after its turn in a cycle. */
  ghost predicate TurnTaken(n: Node, n': Node, out: Outcome) {
    && n'.self == n.self && n'.relationship == out.relationship
    && ((n'.saved == n.saved && n'.savedSelf == n.savedSelf) || (n'.saved == out.relationship && n'.savedSelf == n.self))
    && (forall m :: m in n'.sent ==> m in n.sent || (out.result.Ok? && out.result.value.Send? && m == out.result.value.message))
    && (forall x :: x in n'.handed ==> x in n.handed || (out.installs.Some? && x == out.installs.value))
  }

  lemma CycleTakesTurn(c: Setup, w: World, side: bool, remote: Option<Exchange>, cycle: Cycle, save: SaveOutcome)
    ensures TurnTaken(w.At(side), Next(c, w, CycleStep(side, remote, cycle, save)).At(side), CycleOutcome(c, w, side, remote, cycle))
  {
    hide Reconcile;
  }

  lemma TurnKeepsSide(c: Setup, w: World, w': World, side: bool, out: Outcome)
    requires NodeInv(c, w, side) && Grows(w, w')
    requires TurnTaken(w.At(side), w'.At(side), out) && ResultOk(c, w', side, w.At(side).self, out)
    ensures NodeInv(c, w', side)
  {
    var n := w.At(side);
    hide CopyOk, SentOk, HandedOk, Grows;
    CopyGrows(c, w, w', side, n.savedSelf, n.saved);
    forall m | m in w'.At(side).sent
      ensures SentOk(c, w', side, m)
    {
      if m in n.sent { SentGrows(c, w, w', side, m); }
    }
    forall candidate | candidate in w'.At(side).handed
      ensures HandedOk(c, w', side, candidate)
    {
      if candidate in n.handed { HandedGrows(c, w, w', side, candidate); }
    }
  }

  lemma CycleKeepsSide(c: Setup, w: World, side: bool, remote: Option<Exchange>, cycle: Cycle, save: SaveOutcome)
    requires Inv(c, w) && Allowed(c, w, CycleStep(side, remote, cycle, save))
    ensures NodeInv(c, Next(c, w, CycleStep(side, remote, cycle, save)), side)
  {
    var w' := Next(c, w, CycleStep(side, remote, cycle, save));
    var out := CycleOutcome(c, w, side, remote, cycle);
    CycleReconciles(c, w, side, remote, cycle, save);
    CycleResultOk(c, w, side, remote, cycle, save);
    CycleTakesTurn(c, w, side, remote, cycle, save);
    ReconciledGrows(c, w, w', side, out);
    assert NodeInv(c, w, side);
    hide *;
    TurnKeepsSide(c, w, w', side, out);
  }

  lemma CycleKeepsInv(c: Setup, w: World, side: bool, remote: Option<Exchange>, cycle: Cycle, save: SaveOutcome)
    requires Inv(c, w) && Allowed(c, w, CycleStep(side, remote, cycle, save))
    ensures Inv(c, Next(c, w, CycleStep(side, remote, cycle, save)))
  {
    var w' := Next(c, w, CycleStep(side, remote, cycle, save));
    CycleReconciles(c, w, side, remote, cycle, save);
    CycleKeepsProposals(c, w, side, remote, cycle, save);
    CycleKeepsSide(c, w, side, remote, cycle, save);
    hide Next, Allowed, LogInv, NodeInv, MailInv, Grows, ProposalsInv;
    SideGrows(c, w, w', !side);
    MailGrows(c, w, w');
  }

  // ---------------------------------------------------------------- Changes of one copy

  /** Replacing the copies of one side by copies that are well formed. */
  lemma CopiesKeepInv(c: Setup, w: World, side: bool, n: Node)
    requires Inv(c, w)
    requires n.sent == w.At(side).sent && n.handed == w.At(side).handed
    requires CopyOk(c, w, side, n.self, n.relationship) && CopyOk(c, w, side, n.savedSelf, n.saved)
    ensures Inv(c, w.Put(side, n))
  {
    var w' := w.Put(side, n);
    assert Grows(w, w');
    SideUnchanged(w, side, n);
    hide Next, LogInv, CopyOk, SentOk, HandedOk, VersionOk, Grows;
    SideGrows(c, w, w', !side);
    MailGrows(c, w, w');
    CopyGrows(c, w, w', side, n.self, n.relationship);
    CopyGrows(c, w, w', side, n.savedSelf, n.saved);
    forall m | m in n.sent
      ensures SentOk(c, w', side, m)
    {
      SentGrows(c, w, w', side, m);
    }
    forall candidate | candidate in n.handed
      ensures HandedOk(c, w', side, candidate)
    {
      HandedGrows(c, w, w', side, candidate);
    }
  }

  lemma SideUnchanged(w: World, side: bool, n: Node)
    ensures w.Put(side, n).At(side) == n && w.Put(side, n).At(!side) == w.At(!side)
    ensures w.Put(side, n).log == w.log && w.Put(side, n).proposals == w.proposals
  {
  }

  /** Every step of an endpoint other than a sync cycle only drops or relabels work. */
  lemma LocalStepKeepsInv(c: Setup, w: World, s: Step)
    requires Inv(c, w) && Allowed(c, w, s) && !s.ServerStep? && !s.CycleStep?
    ensures Inv(c, Next(c, w, s))
  {
    var side := s.side;
    var n := w.At(side);
    assert CopyOk(c, w, side, n.self, n.relationship) && CopyOk(c, w, side, n.savedSelf, n.saved);
    hide LogInv, SentInv, HandedInv, ProposalsInv, MailInv, Script, CommittedSeen;
    if s.ServerStep? || s.CycleStep? {
    } else {
      var w' := Next(c, w, s);
      var n' := w'.At(side);
      LocalCopies(c, w, s);
      hide Inv, CopyOk, Next;
      CopiesKeepInv(c, w, side, n');
      LocalPuts(c, w, s);
    }
  }

  lemma LocalPuts(c: Setup, w: World, s: Step)
    requires !s.ServerStep? && !s.CycleStep?
    ensures Next(c, w, s) == w.Put(s.side, Next(c, w, s).At(s.side))
  {
  }

  lemma CopyIgnoresLabels(c: Setup, w: World, side: bool, self: Identity, r: Relationship, enrollment: Enrollment, r': Relationship)
    requires CopyOk(c, w, side, self, r)
    requires r' == r.(activity := r'.activity, status := r'.status, gated := r'.gated, remote := r'.remote,
                      pending := r'.pending, confirmed := r'.confirmed)
    requires r'.remote.sigPublicKey in c.Keys(!side)
    requires r'.pending in {r.pending, None} && r'.confirmed in {r.confirmed, None}
    ensures CopyOk(c, w, side, self.(enrollment := enrollment), r')
  {
    hide PendingShape, Justified, KeyOk;
  }

  lemma CopyIgnoresRetries(c: Setup, w: World, side: bool, self: Identity, r: Relationship, attempts: nat, nextRetryAt: nat)
    requires CopyOk(c, w, side, self, r) && r.pending.Some?
    ensures CopyOk(c, w, side, self, r.(pending := Some(r.pending.value.(attempts := attempts, nextRetryAt := nextRetryAt))))
  {
    hide Script, KeyOk, DecisionShape, CommittedSeen, Needs;
  }

  lemma CopyIgnoresReplacement(c: Setup, w: World, side: bool, self: Identity, r: Relationship, bundle: Bundle)
    requires CopyOk(c, w, side, self, r) && r.pending.None? && bundle.sigPublicKey in c.Keys(side)
    ensures CopyOk(c, w, side, self.(bundle := bundle, enrollment := Enrollment.Registering), r.(gated := true, status := Status.Blocked))
  {
    hide KeyOk;
  }

  lemma CopyTrustsRemote(c: Setup, w: World, side: bool, self: Identity, r: Relationship)
    requires CopyOk(c, w, side, self, r)
    ensures r.remote.sigPublicKey in c.Keys(!side)
  {
  }

  lemma LocalCopies(c: Setup, w: World, s: Step)
    requires Allowed(c, w, s) && !s.ServerStep? && !s.CycleStep?
    requires var n := w.At(s.side); CopyOk(c, w, s.side, n.self, n.relationship) && CopyOk(c, w, s.side, n.savedSelf, n.saved)
    ensures var n, n' := w.At(s.side), Next(c, w, s).At(s.side);
            && n'.sent == n.sent && n'.handed == n.handed
            && CopyOk(c, w, s.side, n'.self, n'.relationship) && CopyOk(c, w, s.side, n'.savedSelf, n'.saved)
  {
    hide CopyOk;
    var n, n' := w.At(s.side), Next(c, w, s).At(s.side);
    var r := n.relationship;
    CopyTrustsRemote(c, w, s.side, n.self, r);
    if s.ReplaceStep? {
      CopyIgnoresReplacement(c, w, s.side, n.self, r, s.bundle);
    } else if s.BackoffStep? {
      if r.pending.Some? {
        var r' := NoteSendFailure(r, s.now, s.random).value;
        CopyIgnoresRetries(c, w, s.side, n.self, r, r'.pending.value.attempts, r'.pending.value.nextRetryAt);
      }
    } else if !s.CrashStep? {
      CopyIgnoresLabels(c, w, s.side, n.self, r, n'.self.enrollment, n'.relationship);
    }
  }

  // ---------------------------------------------------------------- The mailbox

  /** Only a registration changes a bundle row, and only the caller's. */
  lemma StepBundles(l: Log, e: Event, p: int)
    requires p in StepLog(l, e).tables.bundles
    ensures var after := StepLog(l, e).tables.bundles[p];
            (p in l.tables.bundles && after == l.tables.bundles[p])
            || (e.RegisterEvent? && e.id == p && after.bundle == e.request.bundle)
  {
    hide SubmitInner, SweptRecord, Recorded;
  }

  /** The signature pins the envelope and the tag; the transcript hash pins the rest. */
  lemma SignatureSinglesOut(m: Message, s: Message, t: Transcript, side: bool, candidate: Candidate)
    requires m.Authenticate(t).Ok? && m.header.senderId == SideId(t, side) && t.initiatorId < t.responderId
    requires s in Script(t, side, candidate) && s.signature == m.signature
    ensures s == m
  {
    assert m.VerifiedBy(SideBundle(t, side).sigPublicKey);
    var kind :| kind in ScriptKinds(side) && s == Line(t, side, candidate, kind);
    assert s.header == m.header && s.mac == m.mac;
  }

  /** What authenticates in a record of this pair is, byte for byte, what its sender sent. */
  lemma DeliveredIsSent(c: Setup, w: World, side: bool, m: Message, t: Transcript)
    requires SentInv(c, w, side) && Unforged(c, w, m)
    requires m.Authenticate(t).Ok? && m.header.senderId == c.Id(side)
    requires t.initiatorId == c.initiatorId && t.responderId == c.responderId && c.Valid()
    requires SideBundle(t, side).sigPublicKey in c.Keys(side)
    ensures m in w.At(side).sent
  {
    assert m.VerifiedBy(SideBundle(t, side).sigPublicKey) && m.header.transcriptHash == Sha3(t);
    hide Script, Message.Authenticate, MayUse;
    var s :| s in w.At(side).sent && s.signature == m.signature;
    assert SentOk(c, w, side, s);
    SignedHeader(s, m, c, w, side, SideBundle(t, side).sigPublicKey);
    SignatureSinglesOut(m, s, t, side, CandidateFor(t, c.Operator(side)));
  }

  lemma SignedHeader(s: Message, m: Message, c: Setup, w: World, side: bool, signer: B67)
    requires SentOk(c, w, side, s) && s.signature == m.signature && m.VerifiedBy(signer)
    ensures s.header == m.header
  {
  }

  lemma NewVersionOk(c: Setup, w: World, e: Event, k: RowKey, v: Exchange)
    requires Inv(c, w) && Allowed(c, w, ServerStep(e)) && Sourced(w.log, e, k, v)
    ensures VersionOk(c, w, k, v)
  {
    if c.Owns(k) {
      assert k in w.log.tables.exchanges ==> VersionOk(c, w, k, w.log.tables.exchanges[k]) by {
        if k in w.log.tables.exchanges { CurrentVersionOk(c, w, k); }
      }
      if !FromRow(w.log.tables, k, v) {
        MessageVersionOk(c, w, e, k, v);
      }
    }
  }

  lemma CurrentVersionOk(c: Setup, w: World, k: RowKey)
    requires Inv(c, w) && k in w.log.tables.exchanges
    ensures VersionOk(c, w, k, w.log.tables.exchanges[k])
  {
    hide NodeInv, ProposalsInv, VersionOk, ChainOf, GenerationInv, SweepInv;
    var i: nat := |w.log.history[k]| - 1;
    assert Version(w.log, k, i);
  }

  lemma MessageVersionOk(c: Setup, w: World, e: Event, k: RowKey, v: Exchange)
    requires Inv(c, w) && Allowed(c, w, ServerStep(e)) && e.SubmitEvent? && FromMessage(w.log.tables, k, v, e.message) && c.Owns(k)
    requires k in w.log.tables.exchanges ==> VersionOk(c, w, k, w.log.tables.exchanges[k])
    ensures VersionOk(c, w, k, v)
  {
    var m, t := e.message, v.transcriptHash.transcript;
    hide LogInv, CopyOk, SentOk, HandedOk, Replay, DistinctReceipts, Version, ProposalsInv;
    assert MailInv(c, w) && Unforged(c, w, m);
    forall side: bool
      ensures SideBundle(t, side).sigPublicKey in c.Keys(side)
    {
      if !FromPrior(w.log.tables, k, v, m) {
        assert c.Id(side) in w.log.tables.bundles;
      }
    }
    forall side: bool | m.header.senderId == c.Id(side)
      ensures m in w.At(side).sent
    {
      var j :| 0 <= j < |v.receipts| && v.receipts[j] == DigestOf(m);
      assert Faithful(v.receipts[j], t);
      assert SentInv(c, w, side) by { assert NodeInv(c, w, side); }
      DeliveredIsSent(c, w, side, m, t);
    }
    forall d, side: bool | d in v.receipts && d.senderId == c.Id(side)
      ensures d.body.message in w.At(side).sent
    {
      if d != DigestOf(m) {
        assert FromPrior(w.log.tables, k, v, m) && d in w.log.tables.exchanges[k].receipts;
      }
    }
  }

  lemma ServerGrows(c: Setup, w: World, e: Event)
    ensures Grows(w, Next(c, w, ServerStep(e)))
  {
    StepExtends(w.log, e);
    hide StepLog;
  }

  lemma ServerKeepsMail(c: Setup, w: World, e: Event)
    requires Inv(c, w) && Allowed(c, w, ServerStep(e))
    ensures MailInv(c, Next(c, w, ServerStep(e)))
  {
    var w' := Next(c, w, ServerStep(e));
    hide StepLog, LogInv, NodeInv, VersionOk, ProposalsInv, Sourced;
    forall k, i: nat | Version(w'.log, k, i)
      ensures VersionOk(c, w', k, w'.log.history[k][i])
    {
      var v := w'.log.history[k][i];
      if Version(w.log, k, i) {
        ServerGrows(c, w, e);
        VersionGrows(w, w', k, i);
      } else {
        StepVersions(w.log, e, k, i);
        NewVersionOk(c, w, e, k, v);
      }
      VersionOkIgnoresLog(c, w, w', k, v);
    }
    forall side: bool | c.Id(side) in w'.log.tables.bundles
      ensures w'.log.tables.bundles[c.Id(side)].bundle.sigPublicKey in c.Keys(side)
    {
      StepBundles(w.log, e, c.Id(side));
    }
  }

  lemma VersionOkIgnoresLog(c: Setup, w: World, w': World, k: RowKey, v: Exchange)
    requires VersionOk(c, w, k, v) && w' == w.(log := w'.log)
    ensures VersionOk(c, w', k, v)
  {
  }

  lemma ServerKeepsInv(c: Setup, w: World, e: Event)
    requires Inv(c, w) && Allowed(c, w, ServerStep(e))
    ensures Inv(c, Next(c, w, ServerStep(e)))
  {
    var w' := Next(c, w, ServerStep(e));
    ServerGrows(c, w, e);
    ServerKeepsMail(c, w, e);
    StepKeepsInv(w.log, e);
    hide StepLog, LogInv, NodeInv, MailInv, Grows;
    SideGrows(c, w, w', true);
    SideGrows(c, w, w', false);
  }

  // ---------------------------------------------------------------- Every run

  lemma NextKeepsInv(c: Setup, w: World, s: Step)
    requires Inv(c, w) && Allowed(c, w, s)
    ensures Inv(c, Next(c, w, s))
  {
    hide *;
    match s
    case ServerStep(e) => ServerKeepsInv(c, w, e);
    case CycleStep(side, remote, cycle, save) => CycleKeepsInv(c, w, side, remote, cycle, save);
    case _ => LocalStepKeepsInv(c, w, s);
  }

  lemma InitialKeepsInv(c: Setup, w: World)
    requires Initial(c, w)
    ensures Inv(c, w)
  {
    var networkId, d :| w.log == InitialLog(networkId, d);
    InitialInv(networkId, d);
    InitialNode(c, w, true);
    InitialNode(c, w, false);
    hide LogInv, NodeInv;
    assert w.log.tables.bundles == map[] && w.log.history == map[];
  }

  lemma InitialNode(c: Setup, w: World, side: bool)
    requires Initial(c, w)
    ensures NodeInv(c, w, side)
  {
    assert NewNode(c, side, w.At(side));
  }

  lemma {:induction false} RunKeepsSystemInv(c: Setup, w: World, steps: seq<Step>)
    requires Inv(c, w) && AllowedRun(c, w, steps)
    ensures Inv(c, Run(c, w, steps))
    decreases |steps|
  {
    hide Inv, Allowed, Next;
    if |steps| > 0 {
      NextKeepsInv(c, w, steps[0]);
      RunKeepsSystemInv(c, Next(c, w, steps[0]), steps[1..]);
    }
  }
}
