/** What the exchange guarantees in every run of the two-peer system. */
module Theorems {
  import opened Results
  import opened Protocol
  import opened Mailbox
  import opened MailboxHistory
  import opened Engine
  import opened EngineFacts
  import opened System
  import opened SystemSafety
  import opened SystemRuns

  /** A record past the point of no return, unless an administrator ends it. */
  predicate PastReturn(r: Exchange) {
    r.decision.phase in {Phase.Committed, Phase.Complete} || (r.decision.phase == Phase.Aborted && r.termination.Some?)
  }

  /** Versions of one exchange are ordered: a committed one and any other never conflict. */
  lemma CommittedNeverAborts(l: Log, k: RowKey, i: nat, k': RowKey, j: nat)
    requires ChainInv(l) && Version(l, k, i) && Version(l, k', j)
    requires l.history[k][i].transcriptHash == l.history[k'][j].transcriptHash
    requires l.history[k][i].decision.phase == Phase.Committed
    ensures l.history[k'][j].decision.phase == Phase.Aborted ==> l.history[k'][j].termination.Some?
    ensures i <= j && k == k' ==> PastReturn(l.history[k'][j])
  {
    var a, b := l.history[k][i], l.history[k'][j];
    assert ChainOf(k, l.history[k]) && ChainOf(k', l.history[k']);
    assert NamesTranscript(a) && NamesTranscript(b) && a.key == k && b.key == k';
    hide RecordOk;
    if i < j {
      assert Supersedes(a, b);
    } else if j < i {
      assert Supersedes(b, a);
    }
  }

  /**
    Installation is safe. In every run, once an endpoint has handed the candidate of
    a transcript to its installer, a committed version of its record exists, and no
    version of that record, past or present, is aborted except by an administrator.
  */
  lemma InstallIsSafe(c: Setup, w: World, steps: seq<Step>, side: bool, candidate: Candidate)
    requires Initial(c, w) && AllowedRun(c, w, steps)
    requires candidate in Run(c, w, steps).At(side).handed
    ensures candidate.salt.Sha3?
    ensures var log := Run(c, w, steps).log;
            CommittedSeen(log, candidate.salt.transcript)
            && (forall k, i: nat :: Version(log, k, i) && log.history[k][i].transcriptHash == candidate.salt ==>
                  (log.history[k][i].decision.phase == Phase.Aborted ==> log.history[k][i].termination.Some?))
            && (forall k :: k in log.tables.exchanges && log.tables.exchanges[k].transcriptHash == candidate.salt ==>
                  PastReturn(log.tables.exchanges[k]))
  {
    InitialKeepsInv(c, w);
    RunKeepsSystemInv(c, w, steps);
    var w' := Run(c, w, steps);
    assert HandedOk(c, w', side, candidate) by { assert NodeInv(c, w', side); }
    var t := candidate.salt.transcript;
    var k, i: nat :| Version(w'.log, k, i) && w'.log.history[k][i].transcriptHash == Sha3(t) && w'.log.history[k][i].decision.phase == Phase.Committed;
    assert ChainInv(w'.log);
    hide Inv, ChainInv, Run, Initial, RecordOk, HandedOk;
    forall k', j: nat | Version(w'.log, k', j) && w'.log.history[k'][j].transcriptHash == candidate.salt
      ensures w'.log.history[k'][j].decision.phase == Phase.Aborted ==> w'.log.history[k'][j].termination.Some?
    {
      CommittedNeverAborts(w'.log, k, i, k', j);
    }
    forall k' | k' in w'.log.tables.exchanges && w'.log.tables.exchanges[k'].transcriptHash == candidate.salt
      ensures PastReturn(w'.log.tables.exchanges[k'])
    {
      CurrentIsPastReturn(w'.log, k, i, k');
    }
  }

  lemma CurrentIsPastReturn(l: Log, k: RowKey, i: nat, k': RowKey)
    requires ChainInv(l) && Version(l, k, i) && k' in l.tables.exchanges
    requires l.history[k][i].transcriptHash == l.tables.exchanges[k'].transcriptHash
    requires l.history[k][i].decision.phase == Phase.Committed
    ensures PastReturn(l.tables.exchanges[k'])
  {
    var j: nat := |l.history[k']| - 1;
    assert EndsWith(l.history[k'], l.tables.exchanges[k']) && Version(l, k', j);
    assert ChainOf(k, l.history[k]) && ChainOf(k', l.history[k']);
    assert NamesTranscript(l.history[k][i]) && NamesTranscript(l.history[k'][j]) && l.history[k][i].key == k && l.history[k'][j].key == k';
    hide RecordOk, ChainOf;
    CommittedNeverAborts(l, k, i, k', j);
  }

  /**
    Agreement. In every run, if both endpoints hold a confirmed key for the same
    exchange, in memory or on disk, the keys, sequences and transcript hashes agree.
  */
  lemma ConfirmedKeysAgree(c: Setup, w: World, steps: seq<Step>, first: Relationship, second: Relationship)
    requires Initial(c, w) && AllowedRun(c, w, steps)
    requires var w' := Run(c, w, steps);
             first in {w'.initiator.relationship, w'.initiator.saved} && second in {w'.responder.relationship, w'.responder.saved}
    requires first.confirmed.Some? && second.confirmed.Some?
    requires first.confirmed.value.exchangeId == second.confirmed.value.exchangeId
    ensures first.confirmed.value.psk == second.confirmed.value.psk
    ensures first.confirmed.value.sequence == second.confirmed.value.sequence
    ensures first.confirmed.value.transcriptHash == second.confirmed.value.transcriptHash
  {
    InitialKeepsInv(c, w);
    RunKeepsSystemInv(c, w, steps);
    var w' := Run(c, w, steps);
    assert NodeInv(c, w', true) && NodeInv(c, w', false) && w'.At(true) == w'.initiator && w'.At(false) == w'.responder;
    hide LogInv, MailInv, SentInv, HandedInv, PendingOk, Run, Initial;
    assert KeyOk(c, w', true, first.confirmed.value) && KeyOk(c, w', false, second.confirmed.value);
  }

  /** Two endpoints that hold different operator keys never complete, on either of the two candidates. */
  lemma DisagreeingOperatorsNeverAnswer(c: Setup, w: World, steps: seq<Step>)
    requires Initial(c, w) && AllowedRun(c, w, steps)
    requires c.initiatorOperator != c.responderOperator
    ensures var n := Run(c, w, steps).responder;
            n.sent == {} && n.handed == {} && n.relationship.pending.None? && n.relationship.confirmed.None?
  {
    InitialKeepsInv(c, w);
    RunKeepsSystemInv(c, w, steps);
    var w' := Run(c, w, steps);
    assert NodeInv(c, w', false) && w'.At(false) == w'.responder;
    hide LogInv, MailInv, PendingShape, Run, Initial, Script, CommittedSeen;
    forall t
      ensures !MayUse(c, w', false, t)
    {
    }
    assert forall m :: m in w'.responder.sent ==> SentOk(c, w', false, m);
    assert forall x :: x in w'.responder.handed ==> HandedOk(c, w', false, x);
  }

  /** An endpoint that completes an exchange handed that very candidate to its installer, then or earlier. */
  lemma CompletionWasInstalled(c: Setup, w: World, steps: seq<Step>, side: bool, remote: Option<Exchange>, cycle: Cycle)
    requires Initial(c, w) && AllowedRun(c, w, steps)
    requires remote.Some? ==> Readable(c, Run(c, w, steps).log, remote.value)
    requires CycleOutcome(c, Run(c, w, steps), side, remote, cycle).result == Ok(Action.Complete)
    ensures var n := Run(c, w, steps).At(side);
            var out := CycleOutcome(c, Run(c, w, steps), side, remote, cycle);
            n.relationship.pending.Some?
            && n.relationship.pending.value.candidate in n.handed
            && out.relationship.confirmed.Some?
            && out.relationship.confirmed.value.psk == Psk(n.relationship.pending.value.candidate)
            && out.relationship.pending.None?
  {
    InitialKeepsInv(c, w);
    RunKeepsSystemInv(c, w, steps);
    CompletionIn(c, Run(c, w, steps), side, remote, cycle);
  }

  lemma CompletionIn(c: Setup, w: World, side: bool, remote: Option<Exchange>, cycle: Cycle)
    requires Inv(c, w)
    requires remote.Some? ==> Readable(c, w.log, remote.value)
    requires CycleOutcome(c, w, side, remote, cycle).result == Ok(Action.Complete)
    ensures var n, out := w.At(side), CycleOutcome(c, w, side, remote, cycle);
            n.relationship.pending.Some?
            && n.relationship.pending.value.candidate in n.handed
            && out.relationship.confirmed.Some?
            && out.relationship.confirmed.value.psk == Psk(n.relationship.pending.value.candidate)
            && out.relationship.pending.None?
  {
    var n, other := w.At(side), c.Id(!side);
    OnlyPendingCompletes(n.self, other, n.relationship, remote, cycle);
    var p := n.relationship.pending.value;
    assert PendingOk(c, w, side, n.self, p) by { assert NodeInv(c, w, side); }
    hide Inv, Readable, PendingOk, Continue;
    EvidenceHolds(c, w, side, n.self, p, remote);
    PlacedByPendingOk(c, w, side, n.self, p);
    CompletionInstallsNothing(n.self, other, n.relationship, p, remote, cycle);
    hide PendingShape, Placed, Justified, Evidence;
    ContinueFacts(n.self, other, side, n.relationship, p, remote, cycle, CommittedSeen(w.log, p.transcript), p.candidate in n.handed);
  }

  lemma OnlyPendingCompletes(self: Identity, other: Number, r: Relationship, remote: Option<Exchange>, cycle: Cycle)
    requires Reconcile(self, other, r, remote, cycle).result == Ok(Action.Complete)
    ensures r.pending.Some? && Reconcile(self, other, r, remote, cycle) == Continue(self, other, r, r.pending.value, remote, cycle)
  {
    hide Continue, Signed;
  }

  lemma CompletionInstallsNothing(self: Identity, other: Number, r: Relationship, p: Pending, remote: Option<Exchange>, cycle: Cycle)
    requires Continue(self, other, r, p, remote, cycle).result == Ok(Action.Complete)
    ensures Continue(self, other, r, p, remote, cycle).installs == None
  {
    hide Signed, Absorb;
  }
}
