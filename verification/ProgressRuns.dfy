/** The rank of an exchange, and the schedules that bring it to zero. */
module ProgressRuns {
  import opened Results
  import opened Numbers
  import opened Protocol
  import opened Mailbox
  import opened MailboxHistory
  import opened MailboxSafety
  import opened Engine
  import opened EngineFacts
  import opened ReplayFacts
  import opened Simulation
  import opened Duet
  import opened Progress

  // ---------------------------------------------------------------- Delivery of the next message

  /** The record carries one more message than before. */
  ghost predicate CarriesOneMore(sc: Scene, record: Option<Exchange>, after: Option<Exchange>, side: bool, kind: Kind) {
    Current(sc, after)
    && forall s: bool, k :: Carried(sc, after, s, k) <==> Carried(sc, record, s, k) || (s == side && k == kind)
  }

  lemma LastLine(sc: Scene, side: bool, record: Option<Exchange>, p: Pending)
    requires sc.Valid() && Held(sc, side, record, p)
    ensures 1 <= |p.outbox| <= |ScriptKinds(side)| && LastKind(side, p) in ScriptKinds(side)
    ensures p.outbox[|p.outbox| - 1] == Line(sc.t, side, sc.Candidate(), LastKind(side, p))
    ensures IsLine(sc.t, sc.Candidate(), p.outbox[|p.outbox| - 1])
  {
    var script := Script(p.transcript, side, p.candidate);
    assert p.outbox[|p.outbox| - 1] == script[|p.outbox| - 1];
    hide Sound, Demands, Carried;
  }

  /** A record that still lacks a message of a side is open. */
  lemma LackingIsOpen(sc: Scene, side: bool, record: Option<Exchange>, kind: Kind)
    requires sc.Valid() && RecordInv(sc, record) && Current(sc, record)
    requires kind in ScriptKinds(side) && !Carried(sc, record, side, kind)
    ensures record.value.Active()
  {
    RecordDemands(sc, record, side, kind);
    hide RecordOk, Carried, Replay;
  }

  lemma OpeningDelivered(sc: Scene, side: bool, record: Option<Exchange>, p: Pending, at: nat)
    requires sc.Valid() && RecordInv(sc, record) && !Current(sc, record) && Held(sc, side, record, p)
    ensures side && |p.outbox| == 1
    ensures Deliver(sc, record, side, p.outbox[0], at) == Some(OpeningRecord(sc, p.outbox[0], at))
    ensures p.outbox[0] == Line(sc.t, true, sc.Candidate(), Kind.Propose)
  {
    assert Demands(p.decision, true, Kind.Propose);
    assert side && |p.outbox| == 1 by {
      hide PendingShape, Sound;
      assert !Carried(sc, record, side, ScriptKinds(side)[0]);
      HeldIsPlaced(sc, side, record, p);
    }
    LastLine(sc, side, record, p);
    LineIsAuthentic(sc.t, true, sc.Candidate(), Kind.Propose);
    hide Held, SubmitExisting, Line, Message.ValidateShape, Message.Authenticate;
  }

  lemma ProposedInv(sc: Scene, m: Message, at: nat)
    requires sc.Valid() && m == Line(sc.t, true, sc.Candidate(), Kind.Propose)
    ensures RecordInv(sc, Some(OpeningRecord(sc, m, at)))
    ensures forall s: bool, k :: Carried(sc, Some(OpeningRecord(sc, m, at)), s, k) <==> s && k == Kind.Propose
  {
    LineIsAuthentic(sc.t, true, sc.Candidate(), Kind.Propose);
    var e := OpeningRecord(sc, m, at);
    assert e.receipts == [DigestOf(m)] && Replay(e.receipts, sc.Key()) == Ok(START);
    assert Faithful(e.receipts[0], sc.t);
    assert m in Script(sc.t, true, sc.Candidate());
    assert SenderIsInitiator(e.receipts[0], sc.Key()) && e.receipts[0].messageType == Kind.Propose.Code();
  }

  /** The server takes the next message of a side on an open record. */
  lemma AcceptsNext(sc: Scene, side: bool, record: Option<Exchange>, p: Pending)
    requires sc.Valid() && RecordInv(sc, record) && Current(sc, record) && record.value.Active() && Held(sc, side, record, p)
    requires !Carried(sc, record, side, LastKind(side, p))
    ensures record.value.decision.Advance(LastKind(side, p), side).Ok?
  {
    var r, last := record.value.decision, LastKind(side, p);
    HeldIsPlaced(sc, side, record, p);
    RecordDemands(sc, record, side, last);
    forall s: bool, k | Demands(p.decision, s, k)
      ensures Demands(r, s, k) || (s == side && k == last)
    {
      HeldDemand(sc, side, record, p, s, k);
    }
    forall j | 0 <= j < |p.outbox| - 1
      ensures Demands(r, side, ScriptKinds(side)[j])
    {
      RecordDemands(sc, record, side, ScriptKinds(side)[j]);
    }
    hide RecordInv, Carried, Demands, PendingShape, Script, Placed;
    LastAdvances(side, p, r);
  }

  lemma HeldDemand(sc: Scene, side: bool, record: Option<Exchange>, p: Pending, s: bool, k: Kind)
    requires sc.Valid() && RecordInv(sc, record) && Current(sc, record) && Held(sc, side, record, p) && Demands(p.decision, s, k)
    ensures Demands(record.value.decision, s, k) || (s == side && k == LastKind(side, p))
  {
    RecordDemands(sc, record, s, k);
    hide RecordInv, Demands, Carried, Queued;
    if s == side && Queued(p, k) {
      var j := QueuedKind(side, p, k);
      assert j < |p.outbox| - 1 ==> Carried(sc, record, side, ScriptKinds(side)[j]);
    }
  }

  lemma NextIsNew(sc: Scene, e: Exchange, side: bool, kind: Kind, m: Message)
    requires Current(sc, Some(e)) && !Carried(sc, Some(e), side, kind)
    requires m.header.messageType == kind.Code() && SenderIsInitiator(DigestOf(m), sc.Key()) == side
    ensures DigestOf(m) !in e.receipts
    ensures !exists r :: r in e.receipts && r.senderId == m.header.senderId && r.messageType == m.header.messageType
  {
  }

  lemma AcceptedNext(sc: Scene, e: Exchange, side: bool, kind: Kind, m: Message)
    requires sc.Valid() && RecordInv(sc, Some(e)) && Current(sc, Some(e)) && e.Active()
    requires kind in ScriptKinds(side) && m == Line(sc.t, side, sc.Candidate(), kind) && !Carried(sc, Some(e), side, kind)
    requires e.decision.Advance(kind, side).Ok?
    ensures SubmitExisting(e, kind, side, m)
            == Ok(Reply(e.(decision := e.decision.Advance(kind, side).value, messages := e.messages + [m],
                           receipts := e.receipts + [DigestOf(m)]).Compact(), true))
  {
    LineIsAuthentic(sc.t, side, sc.Candidate(), kind);
    OpenIsTranscribed(sc, Some(e));
    assert SenderIsInitiator(DigestOf(m), sc.Key()) == side && m.header.messageType == kind.Code();
    NextIsNew(sc, e, side, kind, m);
    hide RecordInv, Line, Transcribed, Carried, Message.ValidateShape, Message.Authenticate, Decision.Advance;
  }

  lemma AcceptedInv(sc: Scene, e: Exchange, side: bool, kind: Kind, m: Message, after: Exchange)
    requires sc.Valid() && RecordInv(sc, Some(e)) && Current(sc, Some(e)) && e.Active()
    requires kind in ScriptKinds(side) && m == Line(sc.t, side, sc.Candidate(), kind)
    requires SubmitExisting(e, kind, side, m) == Ok(Reply(after, true))
    requires after.receipts == e.receipts + [DigestOf(m)] && after.decision.phase != Phase.Aborted
    ensures RecordInv(sc, Some(after)) && CarriesOneMore(sc, Some(e), Some(after), side, kind)
  {
    LineIsAuthentic(sc.t, side, sc.Candidate(), kind);
    assert RecordOk(sc.Key(), e) && side == (m.header.senderId == sc.Key().initiatorId);
    AcceptedRecordOk(sc.Key(), e, kind, side, m);
    assert IsLine(sc.t, sc.Candidate(), m) by { assert m in Script(sc.t, side, sc.Candidate()); }
    assert RecordOk(sc.Key(), after) && after.transcriptHash == e.transcriptHash && after.exchangeId == e.exchangeId && after.sequence == e.sequence;
    assert DigestOf(m).body.message == m && m.header.messageType == kind.Code() && SenderIsInitiator(DigestOf(m), sc.Key()) == side;
    hide RecordOk, SubmitExisting, Script, Line, IsLine, Message.Authenticate, Message.ValidateShape, Decision.Advance, DigestOf, Evolves, CarriesOneMore;
    AppendedMore(sc, e, after, DigestOf(m), side, kind);
  }

  lemma AppendedMore(sc: Scene, e: Exchange, after: Exchange, d: MessageDigest, side: bool, kind: Kind)
    requires Current(sc, Some(e)) && Current(sc, Some(after)) && after.receipts == e.receipts + [d]
    requires SenderIsInitiator(d, sc.Key()) == side && d.messageType == kind.Code()
    ensures CarriesOneMore(sc, Some(e), Some(after), side, kind)
  {
    hide Carries;
    forall s: bool, k
      ensures Carries(after.receipts, sc.Key(), s, k) <==> Carries(e.receipts, sc.Key(), s, k) || (s == side && k == kind)
    {
      AppendedCarries(e.receipts, d, sc.Key(), s, k, side, kind);
    }
  }

  lemma AppendedCarries(receipts: seq<MessageDigest>, d: MessageDigest, k: RowKey, s: bool, kind: Kind, side: bool, last: Kind)
    requires SenderIsInitiator(d, k) == side && d.messageType == last.Code()
    ensures Carries(receipts + [d], k, s, kind) <==> Carries(receipts, k, s, kind) || (s == side && kind == last)
  {
    var more := receipts + [d];
    assert more[..|receipts|] == receipts && more[|receipts|] == d;
    if Carries(receipts, k, s, kind) {
      CarriesPrefix(more, k, s, kind, |receipts|);
    }
    if Carries(more, k, s, kind) {
      var i :| 0 <= i < |more| && SenderIsInitiator(more[i], k) == s && more[i].messageType == kind.Code();
      if i < |receipts| { assert receipts[i] == more[i]; }
    }
  }

  lemma StaysUnaborted(d: Decision, kind: Kind, side: bool)
    requires d.Advance(kind, side).Ok? && kind in ScriptKinds(side)
    ensures d.Advance(kind, side).value.phase != Phase.Aborted
  {
  }

  /** A last message that arrives is taken, and the record carries exactly that much more. */
  lemma DeliveredIsTaken(sc: Scene, side: bool, record: Option<Exchange>, p: Pending, at: nat)
    requires sc.Valid() && RecordInv(sc, record) && Held(sc, side, record, p)
    requires 1 <= |p.outbox| <= |ScriptKinds(side)| && !Carried(sc, record, side, LastKind(side, p))
    ensures var after := Deliver(sc, record, side, p.outbox[|p.outbox| - 1], at);
            RecordInv(sc, after) && CarriesOneMore(sc, record, after, side, LastKind(side, p))
  {
    var m, kind := p.outbox[|p.outbox| - 1], LastKind(side, p);
    LastLine(sc, side, record, p);
    LineIsAuthentic(sc.t, side, sc.Candidate(), kind);
    if Current(sc, record) {
      LackingIsOpen(sc, side, record, kind);
      AcceptsNext(sc, side, record, p);
      AcceptedNext(sc, record.value, side, kind, m);
      var after := SubmitExisting(record.value, kind, side, m).value.record;
      StaysUnaborted(record.value.decision, kind, side);
      assert after.receipts == record.value.receipts + [DigestOf(m)] && after.decision.phase != Phase.Aborted by {
        hide RecordInv, Carried, Line, Message.Authenticate, Message.ValidateShape, SubmitExisting, Held;
      }
      hide Held, RecordInv, Carried, Line, Message.Authenticate, Message.ValidateShape, SubmitExisting, CarriesOneMore;
      AcceptedInv(sc, record.value, side, kind, m, after);
    } else {
      OpeningDelivered(sc, side, record, p, at);
      hide Held, RecordInv, Line, Message.Authenticate, Message.ValidateShape, Deliver;
      ProposedInv(sc, m, at);
    }
  }

  // ---------------------------------------------------------------- Rank

  function Flag(b: bool): nat {
    if b then 1 else 0
  }

  /** How many of the seven messages of the exchange the record carries. */
  function Count(sc: Scene, record: Option<Exchange>): (n: nat)
    ensures n <= 7
  {
    Flag(Carried(sc, record, true, Kind.Propose)) + Flag(Carried(sc, record, false, Kind.Ready))
    + Flag(Carried(sc, record, true, Kind.Commit))
    + Flag(Carried(sc, record, false, Kind.Installed)) + Flag(Carried(sc, record, true, Kind.Installed))
    + Flag(Carried(sc, record, false, Kind.Confirmed)) + Flag(Carried(sc, record, true, Kind.Confirmed))
  }

  /** How far a side is: not begun, so many messages queued, or done. */
  function Placement(sc: Scene, side: bool, r: Relationship): nat {
    if r.pending.Some? then |r.pending.value.outbox| else if Done(sc, r) then |ScriptKinds(side)| + 1 else 0
  }

  function Rank(sc: Scene, st: State): int {
    (7 - Count(sc, st.record)) + (5 - Placement(sc, true, st.initiator)) + (4 - Placement(sc, false, st.responder))
  }

  /** A call of this side would send or complete. */
  predicate Enabled(sc: Scene, side: bool, record: Option<Exchange>, r: Relationship) {
    if r.pending.Some? then
      1 <= |r.pending.value.outbox| <= |ScriptKinds(side)|
      && !(Current(sc, record) && record.value.Active() && Carried(sc, record, side, LastKind(side, r.pending.value))
           && !NextReady(record.value.decision, side, |r.pending.value.outbox|))
    else
      !side && !Done(sc, r) && Current(sc, record) && record.value.decision.phase == Phase.Proposed
  }

  lemma OneMoreCounts(sc: Scene, record: Option<Exchange>, after: Option<Exchange>, side: bool, kind: Kind)
    requires CarriesOneMore(sc, record, after, side, kind) && !Carried(sc, record, side, kind) && kind in ScriptKinds(side)
    ensures Count(sc, after) == Count(sc, record) + 1
  {
    FlagAfter(sc, record, after, side, kind, true, Kind.Propose);
    FlagAfter(sc, record, after, side, kind, false, Kind.Ready);
    FlagAfter(sc, record, after, side, kind, true, Kind.Commit);
    FlagAfter(sc, record, after, side, kind, false, Kind.Installed);
    FlagAfter(sc, record, after, side, kind, true, Kind.Installed);
    FlagAfter(sc, record, after, side, kind, false, Kind.Confirmed);
    FlagAfter(sc, record, after, side, kind, true, Kind.Confirmed);
    hide Carried, CarriesOneMore;
  }

  lemma FlagAfter(sc: Scene, record: Option<Exchange>, after: Option<Exchange>, side: bool, kind: Kind, s: bool, k: Kind)
    requires CarriesOneMore(sc, record, after, side, kind) && !Carried(sc, record, side, kind)
    ensures Flag(Carried(sc, after, s, k)) == Flag(Carried(sc, record, s, k)) + Flag(s == side && k == kind)
  {
    hide Carried;
  }

  lemma PlacementBounds(sc: Scene, side: bool, record: Option<Exchange>, r: Relationship)
    requires sc.Valid() && SideInv(sc, side, record, r)
    ensures Placement(sc, side, r) <= |ScriptKinds(side)| + 1
    ensures Placement(sc, side, r) == |ScriptKinds(side)| + 1 <==> Done(sc, r)
  {
    if r.pending.Some? {
      HeldIsPlaced(sc, side, record, r.pending.value);
    }
    hide Held;
  }

  // ---------------------------------------------------------------- One poll

  lemma CallCases(sc: Scene, side: bool, record: Option<Exchange>, r: Relationship, c: Cycle)
    requires sc.Valid() && RecordInv(sc, record) && SideInv(sc, side, record, r) && Cooperative(r, side, c)
    ensures var out := Reconcile(sc.Self(side), SideId(sc.t, !side), r, record, c);
            || Sends(sc, side, record, r, out)
            || (r.pending.Some? && Waits(sc, side, record, r, r.pending.value, out) && !Enabled(sc, side, record, r))
            || (out.result == Ok(Action.Complete) && Done(sc, out.relationship) && !Done(sc, r) && SideInv(sc, side, record, out.relationship))
            || (out == Quiet(r, Ok(Idle)) && !Enabled(sc, side, record, r))
  {
    if r.pending.Some? {
      InFlight(sc, side, record, r, c);
      HeldIsPlaced(sc, side, record, r.pending.value);
      hide Continue, RecordInv, SideInv, Sends, Waits, Carried, NextReady, Cooperative;
      if !Current(sc, record) {
        UnseenTurn(sc, side, record, r, c);
      } else if record.value.Active() {
        OpenTurn(sc, side, record, r, c);
      } else {
        TerminalIsComplete(sc, record);
        CompleteTurn(sc, side, record, r, c);
      }
    } else if !side && Current(sc, record) && record.value.decision.phase == Phase.Proposed {
      assert Reconcile(sc.Self(side), SideId(sc.t, !side), r, record, c) == Join(sc.responder, sc.t.initiatorId, r, record);
      hide Join, Sends, SideInv, RecordInv;
      JoinSends(sc, record, r);
    } else {
      hide Reconcile, Sends, SideInv, RecordInv;
      IdleTurn(sc, side, record, r, c);
    }
  }

  lemma InFlight(sc: Scene, side: bool, record: Option<Exchange>, r: Relationship, c: Cycle)
    requires sc.Valid() && SideInv(sc, side, record, r) && r.pending.Some?
    ensures Reconcile(sc.Self(side), SideId(sc.t, !side), r, record, c)
            == Continue(sc.Self(side), SideId(sc.t, !side), r, r.pending.value, record, c)
    ensures Held(sc, side, record, r.pending.value)
  {
    hide Continue, Held;
  }

  lemma TerminalIsComplete(sc: Scene, record: Option<Exchange>)
    requires RecordInv(sc, record) && Current(sc, record) && !record.value.Active()
    ensures record.value.decision.phase == Phase.Complete
  {
    hide RecordOk;
  }

  lemma HeldGrows(sc: Scene, side: bool, record: Option<Exchange>, q: Pending, after: Option<Exchange>, sender: bool, kind: Kind)
    requires Held(sc, side, record, q) && CarriesOneMore(sc, record, after, sender, kind) && (side == sender ==> Queued(q, kind))
    ensures Held(sc, side, after, q)
  {
    hide PendingShape, Sound, Demands, Carried, Queued, Current;
    HeldBounds(sc, side, record, q);
    assert Relayed(sc, side, after, q);
  }

  lemma HeldBounds(sc: Scene, side: bool, record: Option<Exchange>, q: Pending)
    requires Held(sc, side, record, q)
    ensures 1 <= |q.outbox| <= |ScriptKinds(side)| && PendingShape(side, q)
  {
  }

  /** The side that did not send keeps its invariant when the record takes a message. */
  lemma OtherSideKept(sc: Scene, side: bool, record: Option<Exchange>, r: Relationship, after: Option<Exchange>, kind: Kind)
    requires SideInv(sc, side, record, r) && CarriesOneMore(sc, record, after, !side, kind)
    requires Current(sc, record) ==> record.value.Active()
    ensures SideInv(sc, side, after, r)
  {
    hide Held, Carried;
    if r.pending.Some? {
      HeldGrows(sc, side, record, r.pending.value, after, !side, kind);
    }
  }

  lemma RetryKeepsHeld(sc: Scene, side: bool, record: Option<Exchange>, p: Pending, attempts: nat, nextRetryAt: nat)
    requires Held(sc, side, record, p)
    ensures Held(sc, side, record, p.(attempts := attempts, nextRetryAt := nextRetryAt))
  {
    var q := p.(attempts := attempts, nextRetryAt := nextRetryAt);
    hide Carried, Demands, Sound, Script, DecisionShape;
    forall k | Queued(p, k)
      ensures Queued(q, k)
    {
      SameQueue(p, q, k);
    }
  }

  lemma PostponedKept(sc: Scene, side: bool, record: Option<Exchange>, r: Relationship, now: nat, random: Byte)
    requires SideInv(sc, side, record, r) && r.pending.Some?
    ensures var r' := Postponed(r, now, random);
            SideInv(sc, side, record, r') && r'.pending.Some? && r'.pending.value.outbox == r.pending.value.outbox
  {
    var r' := NoteSendFailure(r, now, random).value;
    RetryKeepsHeld(sc, side, record, r.pending.value, r'.pending.value.attempts, r'.pending.value.nextRetryAt);
    hide Held, Pow2;
  }

  /** What remains of a poll once the call has decided to send. */
  lemma SentTurn(sc: Scene, st: State, poll: Poll, out: Outcome)
    requires StateInv(sc, st) && out == Reconcile(sc.Self(poll.side), SideId(sc.t, !poll.side), st.At(poll.side), st.record, poll.cycle)
    requires Sends(sc, poll.side, st.record, st.At(poll.side), out)
    ensures var st' := Turn(sc, st, poll);
            StateInv(sc, st') && st'.At(!poll.side) == st.At(!poll.side)
            && st'.At(poll.side).pending.Some? && |st'.At(poll.side).pending.value.outbox| == |out.relationship.pending.value.outbox|
            && if poll.arrives then Count(sc, st'.record) == Count(sc, st.record) + 1 else st'.record == st.record
  {
    var side := poll.side;
    var p := out.relationship.pending.value;
    HeldIsPlaced(sc, side, st.record, p);
    LastLine(sc, side, st.record, p);
    OutRelationship(sc, side, st.record, st.At(side), out);
    var noted := if poll.arrives && poll.acknowledged then out.relationship else Postponed(out.relationship, poll.cycle.now, poll.random);
    PostponedKept(sc, side, st.record, out.relationship, poll.cycle.now, poll.random);
    SentTo(sc, st, poll, out);
    hide Reconcile, Held, RecordInv, Carried, Deliver, Postponed, Turn, Line, PendingShape, Placed;
    if poll.arrives {
      var after := Deliver(sc, st.record, side, p.outbox[|p.outbox| - 1], poll.at);
      DeliveredIsTaken(sc, side, st.record, p, poll.at);
      OneMoreCounts(sc, st.record, after, side, LastKind(side, p));
      if Current(sc, st.record) { LackingIsOpen(sc, side, st.record, LastKind(side, p)); }
      OtherSideKept(sc, !side, st.record, st.At(!side), after, LastKind(side, p));
      SenderKept(sc, side, st.record, noted, after, LastKind(side, p), out.relationship);
    }
  }

  lemma SentTo(sc: Scene, st: State, poll: Poll, out: Outcome)
    requires out == Reconcile(sc.Self(poll.side), SideId(sc.t, !poll.side), st.At(poll.side), st.record, poll.cycle)
    requires out.result.Ok? && out.result.value.Send?
    ensures var st' := Turn(sc, st, poll);
            && st'.At(!poll.side) == st.At(!poll.side)
            && st'.At(poll.side) == (if poll.arrives && poll.acknowledged then out.relationship
                                     else Postponed(out.relationship, poll.cycle.now, poll.random))
            && st'.record == if poll.arrives then Deliver(sc, st.record, poll.side, out.result.value.message, poll.at) else st.record
  {
    hide Reconcile, Deliver, Postponed;
  }

  lemma OutRelationship(sc: Scene, side: bool, record: Option<Exchange>, r: Relationship, out: Outcome)
    requires SideInv(sc, side, record, r) && Sends(sc, side, record, r, out)
    ensures SideInv(sc, side, record, out.relationship)
  {
    hide Held, Carried;
  }

  lemma SenderKept(sc: Scene, side: bool, record: Option<Exchange>, noted: Relationship, after: Option<Exchange>, kind: Kind, sent: Relationship)
    requires SideInv(sc, side, record, noted) && noted.pending.Some? && sent.pending.Some?
    requires noted.pending.value.outbox == sent.pending.value.outbox && Held(sc, side, record, sent.pending.value)
    requires 1 <= |sent.pending.value.outbox| <= |ScriptKinds(side)| && kind == LastKind(side, sent.pending.value)
    requires CarriesOneMore(sc, record, after, side, kind)
    ensures SideInv(sc, side, after, noted)
  {
    var p, q := sent.pending.value, noted.pending.value;
    HeldBounds(sc, side, record, p);
    OutboxKinds(side, p);
    assert p.outbox[|p.outbox| - 1] in p.outbox;
    assert Queued(p, kind);
    SameQueue(p, q, kind);
    hide Held, Carried, PendingShape, Queued, CarriesOneMore;
    HeldGrows(sc, side, record, q, after, side, kind);
  }

  /** What a poll does to the rank and to who is enabled. */
  ghost predicate Lowers(sc: Scene, st: State, poll: Poll, st': State) {
    && Rank(sc, st') <= Rank(sc, st)
    && (Enabled(sc, poll.side, st.record, st.At(poll.side)) && poll.arrives ==> Rank(sc, st') < Rank(sc, st))
    && (Rank(sc, st') == Rank(sc, st) ==>
          forall side: bool :: Enabled(sc, side, st'.record, st'.At(side)) <==> Enabled(sc, side, st.record, st.At(side)))
  }

  /** The rank moves with the record and with the side that polled. */
  lemma RankMoves(sc: Scene, st: State, poll: Poll, st': State)
    requires st'.At(!poll.side) == st.At(!poll.side)
    requires Placement(sc, poll.side, st'.At(poll.side)) >= Placement(sc, poll.side, st.At(poll.side))
    requires if st'.record == st.record then true else Count(sc, st'.record) == Count(sc, st.record) + 1
    requires || Count(sc, st'.record) == Count(sc, st.record) + 1
             || Placement(sc, poll.side, st'.At(poll.side)) > Placement(sc, poll.side, st.At(poll.side))
             || (st'.record == st.record
                 && Enabled(sc, poll.side, st'.record, st'.At(poll.side)) == Enabled(sc, poll.side, st.record, st.At(poll.side))
                 && !(Enabled(sc, poll.side, st.record, st.At(poll.side)) && poll.arrives))
    ensures Lowers(sc, st, poll, st')
  {
    hide Count, Placement, Enabled;
    RankSplits(sc, st, poll.side);
    RankSplits(sc, st', poll.side);
    if Rank(sc, st') == Rank(sc, st) {
      forall side: bool
        ensures Enabled(sc, side, st'.record, st'.At(side)) <==> Enabled(sc, side, st.record, st.At(side))
      {
        if side != poll.side { assert side == !poll.side; }
      }
    }
  }

  lemma RankSplits(sc: Scene, st: State, side: bool)
    ensures Rank(sc, st) == 16 - Count(sc, st.record) - Placement(sc, side, st.At(side)) - Placement(sc, !side, st.At(!side))
  {
    hide Count, Placement;
  }

  lemma SentLowers(sc: Scene, st: State, poll: Poll, out: Outcome)
    requires StateInv(sc, st) && out == Reconcile(sc.Self(poll.side), SideId(sc.t, !poll.side), st.At(poll.side), st.record, poll.cycle)
    requires Sends(sc, poll.side, st.record, st.At(poll.side), out) && !Done(sc, st.At(poll.side))
    ensures StateInv(sc, Turn(sc, st, poll)) && Lowers(sc, st, poll, Turn(sc, st, poll))
  {
    var side, r := poll.side, st.At(poll.side);
    var st' := Turn(sc, st, poll);
    SideInvOf(sc, st, side);
    hide *;
    SentTurn(sc, st, poll, out);
    SentPlacement(sc, side, st.record, r, out);
    InFlightPlacement(sc, side, st'.At(side));
    if !poll.arrives && r.pending.Some? {
      InFlightPlacement(sc, side, r);
      if |st'.At(side).pending.value.outbox| == |r.pending.value.outbox| {
        EnabledIgnoresView(sc, side, st.record, r, st'.At(side));
      }
    }
    RankMoves(sc, st, poll, st');
  }

  lemma InFlightPlacement(sc: Scene, side: bool, r: Relationship)
    requires r.pending.Some?
    ensures Placement(sc, side, r) == |r.pending.value.outbox|
  {
  }

  lemma UnsentLowers(sc: Scene, st: State, poll: Poll, out: Outcome)
    requires StateInv(sc, st) && out == Reconcile(sc.Self(poll.side), SideId(sc.t, !poll.side), st.At(poll.side), st.record, poll.cycle)
    requires var side, r := poll.side, st.At(poll.side);
             || (r.pending.Some? && Waits(sc, side, st.record, r, r.pending.value, out) && !Enabled(sc, side, st.record, r))
             || (out.result == Ok(Action.Complete) && Done(sc, out.relationship) && !Done(sc, r) && SideInv(sc, side, st.record, out.relationship))
             || (out == Quiet(r, Ok(Idle)) && !Enabled(sc, side, st.record, r))
    ensures StateInv(sc, Turn(sc, st, poll)) && Lowers(sc, st, poll, Turn(sc, st, poll))
  {
    var side, r := poll.side, st.At(poll.side);
    SideInvOf(sc, st, side);
    assert sc.Valid();
    QuietChangesNothing(r);
    hide *;
    if r.pending.Some? && Waits(sc, side, st.record, r, r.pending.value, out) {
      WaitsKept(sc, side, st.record, r, out);
      UnsentTurn(sc, st, poll, out);
      InFlightPlacement(sc, side, r);
      InFlightPlacement(sc, side, out.relationship);
      EnabledIgnoresView(sc, side, st.record, r, out.relationship);
    } else {
      UnsentTurn(sc, st, poll, out);
      PlacementBounds(sc, side, st.record, r);
      PlacementBounds(sc, side, st.record, out.relationship);
    }
    RankMoves(sc, st, poll, Turn(sc, st, poll));
  }

  lemma WaitsKept(sc: Scene, side: bool, record: Option<Exchange>, r: Relationship, out: Outcome)
    requires SideInv(sc, side, record, r) && r.pending.Some? && Waits(sc, side, record, r, r.pending.value, out)
    ensures SideInv(sc, side, record, out.relationship) && out.result == Ok(Idle)
    ensures out.relationship.pending.Some? && out.relationship.pending.value.outbox == r.pending.value.outbox
  {
    hide Held, Carried;
  }

  lemma QuietChangesNothing(r: Relationship)
    ensures Quiet(r, Ok(Idle)).relationship == r && Quiet(r, Ok(Idle)).result == Ok(Idle)
  {
  }

  /**
    A poll keeps the invariant and never raises the rank. It lowers the rank if its
    side was enabled and its message arrives; if it lowers nothing, whoever was
    enabled still is.
  */
  lemma TurnLowers(sc: Scene, st: State, poll: Poll)
    requires StateInv(sc, st) && Eligible(st, poll)
    ensures StateInv(sc, Turn(sc, st, poll)) && Lowers(sc, st, poll, Turn(sc, st, poll))
  {
    var side, r := poll.side, st.At(poll.side);
    var out := Reconcile(sc.Self(side), SideId(sc.t, !side), r, st.record, poll.cycle);
    SideInvOf(sc, st, side);
    CallCases(sc, side, st.record, r, poll.cycle);
    hide Reconcile, Turn, Sends, Waits, RecordInv, SideInv, Lowers, Enabled;
    if Sends(sc, side, st.record, r, out) {
      if Done(sc, r) {
        DoneNeverSends(sc, side, st.record, r, poll.cycle);
      } else {
        SentLowers(sc, st, poll, out);
      }
    } else {
      UnsentLowers(sc, st, poll, out);
    }
  }

  lemma DoneNeverSends(sc: Scene, side: bool, record: Option<Exchange>, r: Relationship, c: Cycle)
    requires sc.Valid() && RecordInv(sc, record) && SideInv(sc, side, record, r) && Cooperative(r, side, c) && Done(sc, r)
    ensures !Sends(sc, side, record, r, Reconcile(sc.Self(side), SideId(sc.t, !side), r, record, c))
  {
    hide RecordOk, Held, Carried;
    IdleTurn(sc, side, record, r, c);
    hide Reconcile;
  }

  lemma SideInvOf(sc: Scene, st: State, side: bool)
    requires StateInv(sc, st)
    ensures SideInv(sc, side, st.record, st.At(side))
  {
    hide SideInv;
  }

  lemma SentPlacement(sc: Scene, side: bool, record: Option<Exchange>, r: Relationship, out: Outcome)
    requires sc.Valid() && SideInv(sc, side, record, r) && Sends(sc, side, record, r, out)
    requires !Done(sc, r)
    ensures r.pending.None? ==> Placement(sc, side, r) == 0
    ensures r.pending.Some? ==> Placement(sc, side, r) == |r.pending.value.outbox| <= |out.relationship.pending.value.outbox|
    ensures |out.relationship.pending.value.outbox| > 0
  {
    HeldIsPlaced(sc, side, record, out.relationship.pending.value);
    hide Held, Carried;
  }

  lemma EnabledIgnoresView(sc: Scene, side: bool, record: Option<Exchange>, r: Relationship, r': Relationship)
    requires r.pending.Some? && r'.pending.Some? && |r.pending.value.outbox| == |r'.pending.value.outbox|
    ensures Enabled(sc, side, record, r) == Enabled(sc, side, record, r')
  {
    hide Carried;
  }

  lemma UnsentTurn(sc: Scene, st: State, poll: Poll, out: Outcome)
    requires StateInv(sc, st) && out == Reconcile(sc.Self(poll.side), SideId(sc.t, !poll.side), st.At(poll.side), st.record, poll.cycle)
    requires out.result.Ok? && !out.result.value.Send? && SideInv(sc, poll.side, st.record, out.relationship)
    ensures var st' := Turn(sc, st, poll);
            StateInv(sc, st') && st'.record == st.record && st'.At(poll.side) == out.relationship && st'.At(!poll.side) == st.At(!poll.side)
  {
    hide Reconcile, SideInv, RecordInv;
  }

  // ---------------------------------------------------------------- Nobody is stuck

  /** What the record says when a side has something in flight and nothing to do. */
  lemma WaitingInFlight(sc: Scene, side: bool, record: Option<Exchange>, r: Relationship)
    requires sc.Valid() && RecordInv(sc, record) && SideInv(sc, side, record, r) && r.pending.Some? && !Enabled(sc, side, record, r)
    ensures Current(sc, record) && record.value.Active()
    ensures var d := record.value.decision;
            if side then d.phase == Phase.Proposed || (d.phase == Phase.Committed && (!d.installed.responder || d.confirmed.initiator))
            else d.phase == Phase.Ready || (d.phase == Phase.Committed && d.confirmed.responder)
  {
    var p := r.pending.value;
    HeldIsPlaced(sc, side, record, p);
    var n := |p.outbox|;
    assert Carried(sc, record, side, LastKind(side, p)) && !NextReady(record.value.decision, side, n);
    RecordDemands(sc, record, side, LastKind(side, p));
    if n < |ScriptKinds(side)| {
      NotYetCarried(sc, side, record, p, ScriptKinds(side)[n]);
      RecordDemands(sc, record, side, ScriptKinds(side)[n]);
    }
    RecordPhase(sc, record);
    hide RecordInv, SideInv, Carried, PendingShape, Placed;
  }

  lemma RecordPhase(sc: Scene, record: Option<Exchange>)
    requires sc.Valid() && RecordInv(sc, record) && Current(sc, record)
    ensures var d := record.value.decision;
            Sound(d) && (d.phase in {Phase.Proposed, Phase.Ready} ==> d.installed == NEITHER && d.confirmed == NEITHER)
  {
    RecordDemands(sc, record, true, Kind.Propose);
    hide RecordInv, Carried, Carries;
    ReplayOrdered(record.value.receipts, sc.Key());
  }

  /** As long as the exchange is not over, one of the sides has something to do. */
  lemma SomeoneIsEnabled(sc: Scene, st: State)
    requires StateInv(sc, st) && !(Done(sc, st.initiator) && Done(sc, st.responder))
    ensures Enabled(sc, true, st.record, st.initiator) || Enabled(sc, false, st.record, st.responder)
  {
    var record, a, b := st.record, st.initiator, st.responder;
    if !Enabled(sc, true, record, a) && !Enabled(sc, false, record, b) {
      if a.pending.Some? { WaitingInFlight(sc, true, record, a); }
      if b.pending.Some? { WaitingInFlight(sc, false, record, b); }
      assert Current(sc, record) && (a.pending.None? ==> record.value.decision.phase == Phase.Complete);
      RecordPhase(sc, record);
      RecordDemands(sc, record, false, Kind.Ready);
      hide RecordInv, Held, Carried;
      assert false;
    }
  }

  // ---------------------------------------------------------------- Schedules

  function RunPolls(sc: Scene, st: State, polls: seq<Poll>): State
    decreases |polls|
  {
    if |polls| == 0 then st else RunPolls(sc, Turn(sc, st, polls[0]), polls[1..])
  }

  predicate EligibleRun(sc: Scene, st: State, polls: seq<Poll>)
    decreases |polls|
  {
    |polls| == 0 || (Eligible(st, polls[0]) && EligibleRun(sc, Turn(sc, st, polls[0]), polls[1..]))
  }

  /** A poll of this side whose message arrives takes place. */
  predicate Serves(polls: seq<Poll>, side: bool) {
    exists i :: 0 <= i < |polls| && polls[i].side == side && polls[i].arrives
  }

  lemma {:induction false} PollsNeverRaise(sc: Scene, st: State, polls: seq<Poll>)
    requires StateInv(sc, st) && EligibleRun(sc, st, polls)
    ensures StateInv(sc, RunPolls(sc, st, polls)) && Rank(sc, RunPolls(sc, st, polls)) <= Rank(sc, st)
    decreases |polls|
  {
    hide StateInv, Turn, Eligible, Rank, Enabled;
    if |polls| > 0 {
      TurnLowers(sc, st, polls[0]);
      PollsNeverRaise(sc, Turn(sc, st, polls[0]), polls[1..]);
    }
  }

  /** Whatever happens in between, an enabled side that is served lowers the rank. */
  lemma {:induction false} ServedLowers(sc: Scene, st: State, polls: seq<Poll>, side: bool)
    requires StateInv(sc, st) && EligibleRun(sc, st, polls) && Serves(polls, side)
    requires Enabled(sc, side, st.record, st.At(side))
    ensures StateInv(sc, RunPolls(sc, st, polls)) && Rank(sc, RunPolls(sc, st, polls)) < Rank(sc, st)
    decreases |polls|
  {
    hide *;
    ServesFirstOrRest(polls, side);
    var next, rest := Turn(sc, st, polls[0]), polls[1..];
    RunUnfolds(sc, st, polls);
    TurnLowers(sc, st, polls[0]);
    LowersFacts(sc, st, polls[0], next);
    if Rank(sc, next) < Rank(sc, st) {
      PollsNeverRaise(sc, next, rest);
    } else {
      LowersKeepsEnabled(sc, st, polls[0], next, side);
      ServedLowers(sc, next, rest, side);
    }
  }

  lemma ServesFirstOrRest(polls: seq<Poll>, side: bool)
    requires Serves(polls, side)
    ensures |polls| > 0 && (Serves(polls[1..], side) || (polls[0].side == side && polls[0].arrives))
  {
    var i :| 0 <= i < |polls| && polls[i].side == side && polls[i].arrives;
    if i > 0 {
      assert polls[1..][i - 1] == polls[i];
    }
  }

  lemma RunUnfolds(sc: Scene, st: State, polls: seq<Poll>)
    requires |polls| > 0
    ensures RunPolls(sc, st, polls) == RunPolls(sc, Turn(sc, st, polls[0]), polls[1..])
    ensures EligibleRun(sc, st, polls) ==> Eligible(st, polls[0]) && EligibleRun(sc, Turn(sc, st, polls[0]), polls[1..])
  {
    hide Turn, Eligible;
  }

  lemma LowersFacts(sc: Scene, st: State, poll: Poll, st': State)
    requires Lowers(sc, st, poll, st')
    ensures Rank(sc, st') <= Rank(sc, st)
    ensures Enabled(sc, poll.side, st.record, st.At(poll.side)) && poll.arrives ==> Rank(sc, st') < Rank(sc, st)
  {
    hide Rank, Enabled;
  }

  lemma LowersKeepsEnabled(sc: Scene, st: State, poll: Poll, st': State, side: bool)
    requires Lowers(sc, st, poll, st') && Rank(sc, st') == Rank(sc, st)
    ensures Enabled(sc, side, st'.record, st'.At(side)) == Enabled(sc, side, st.record, st.At(side))
  {
    hide Rank, Enabled;
  }

  /** A round serves both sides at least once; any number of other polls may be lost in it. */
  predicate Round(polls: seq<Poll>) {
    Serves(polls, true) && Serves(polls, false)
  }

  function RunRounds(sc: Scene, st: State, rounds: seq<seq<Poll>>): State
    decreases |rounds|
  {
    if |rounds| == 0 then st else RunRounds(sc, RunPolls(sc, st, rounds[0]), rounds[1..])
  }

  predicate EligibleRounds(sc: Scene, st: State, rounds: seq<seq<Poll>>)
    decreases |rounds|
  {
    |rounds| == 0
    || (EligibleRun(sc, st, rounds[0]) && Round(rounds[0]) && EligibleRounds(sc, RunPolls(sc, st, rounds[0]), rounds[1..]))
  }

  lemma RankBounds(sc: Scene, st: State)
    requires StateInv(sc, st)
    ensures Rank(sc, st) >= 0
    ensures Rank(sc, st) == 0 ==> Done(sc, st.initiator) && Done(sc, st.responder)
  {
    PlacementBounds(sc, true, st.record, st.initiator);
    PlacementBounds(sc, false, st.record, st.responder);
    hide RecordInv, SideInv, Count, Placement;
  }

  lemma RoundLowers(sc: Scene, st: State, polls: seq<Poll>)
    requires StateInv(sc, st) && EligibleRun(sc, st, polls) && Round(polls)
    requires !(Done(sc, st.initiator) && Done(sc, st.responder))
    ensures StateInv(sc, RunPolls(sc, st, polls)) && Rank(sc, RunPolls(sc, st, polls)) < Rank(sc, st)
  {
    SomeoneIsEnabled(sc, st);
    assert st.At(true) == st.initiator && st.At(false) == st.responder;
    hide StateInv, Rank, Enabled, RunPolls, Done, Serves;
    if Enabled(sc, true, st.record, st.initiator) {
      ServedLowers(sc, st, polls, true);
    } else {
      ServedLowers(sc, st, polls, false);
    }
  }

  /** Once both sides are done, they stay done. */
  lemma {:induction false} DoneStays(sc: Scene, st: State, polls: seq<Poll>)
    requires StateInv(sc, st) && EligibleRun(sc, st, polls) && Done(sc, st.initiator) && Done(sc, st.responder)
    ensures RunPolls(sc, st, polls) == st
    decreases |polls|
  {
    if |polls| > 0 {
      var poll := polls[0];
      var r := st.At(poll.side);
      assert SideInv(sc, poll.side, st.record, r) && Done(sc, r) && Cooperative(r, poll.side, poll.cycle);
      assert Turn(sc, st, poll) == st by {
        IdleTurn(sc, poll.side, st.record, r, poll.cycle);
        hide Reconcile, RecordInv, SideInv, Held, Carried, Deliver;
      }
      hide Turn, StateInv, Eligible;
      DoneStays(sc, st, polls[1..]);
    }
  }

  /** As many rounds as the rank of the state complete the exchange on both sides. */
  lemma {:induction false} RoundsComplete(sc: Scene, st: State, rounds: seq<seq<Poll>>)
    requires StateInv(sc, st) && EligibleRounds(sc, st, rounds) && |rounds| >= Rank(sc, st)
    ensures StateInv(sc, RunRounds(sc, st, rounds))
    ensures Done(sc, RunRounds(sc, st, rounds).initiator) && Done(sc, RunRounds(sc, st, rounds).responder)
    decreases |rounds|
  {
    hide StateInv, Rank, RunPolls, EligibleRun, Round, Done;
    RankBounds(sc, st);
    if Done(sc, st.initiator) && Done(sc, st.responder) {
      DoneRounds(sc, st, rounds);
    } else {
      var next := RunPolls(sc, st, rounds[0]);
      RoundLowers(sc, st, rounds[0]);
      RoundsComplete(sc, next, rounds[1..]);
    }
  }

  lemma {:induction false} DoneRounds(sc: Scene, st: State, rounds: seq<seq<Poll>>)
    requires StateInv(sc, st) && EligibleRounds(sc, st, rounds) && Done(sc, st.initiator) && Done(sc, st.responder)
    ensures RunRounds(sc, st, rounds) == st
    decreases |rounds|
  {
    hide StateInv, RunPolls, EligibleRun, Round, Done;
    if |rounds| > 0 {
      DoneStays(sc, st, rounds[0]);
      DoneRounds(sc, st, rounds[1..]);
    }
  }

  // ---------------------------------------------------------------- From a fresh proposal

  /** The initiator has just opened the exchange; the mailbox holds at most an older, finished one. */
  ghost predicate Fresh(sc: Scene, st: State, before: Relationship, c: Cycle) {
    && sc.Valid()
    && Sane(sc, true, before) && before.pending.None? && before.operatorPskId == sc.t.operatorPskId
    && sc.t == NewTranscript(sc.initiator, sc.t.responderId, before, c)
    && st.initiator == Start(sc.initiator, sc.t.responderId, before, c).relationship && st.initiator.pending.Some?
    && Sane(sc, false, st.responder) && st.responder.pending.None? && !Done(sc, st.responder)
    && (st.record.Some? ==> !st.record.value.Active() && st.record.value.sequence < sc.t.sequence)
  }

  lemma FreshHeld(sc: Scene, st: State, before: Relationship, c: Cycle)
    requires Fresh(sc, st, before, c)
    ensures Held(sc, true, st.record, st.initiator.pending.value) && |st.initiator.pending.value.outbox| == 1
    ensures Sane(sc, true, st.initiator) && !Current(sc, st.record)
  {
    StartFacts(sc.initiator, sc.t.responderId, before, c);
    StartDecision(sc.initiator, sc.t.responderId, before, c);
    hide Start, Justified;
    var p := st.initiator.pending.value;
    assert p.outbox[0] in p.outbox;
    assert Queued(p, Kind.Propose);
  }

  lemma FreshInv(sc: Scene, st: State, before: Relationship, c: Cycle)
    requires Fresh(sc, st, before, c)
    ensures StateInv(sc, st) && Rank(sc, st) <= 15
  {
    FreshHeld(sc, st, before, c);
    assert st.initiator.pending.Some? && sc.Valid() && RecordInv(sc, st.record);
    assert SideInv(sc, false, st.record, st.responder);
    hide Held, Fresh, RecordInv;
    assert SideInv(sc, true, st.record, st.initiator);
    hide SideInv, Count;
  }

  lemma DoneAgrees(sc: Scene, st: State)
    requires StateInv(sc, st) && Done(sc, st.initiator) && Done(sc, st.responder)
    ensures st.initiator.confirmed.Some? && st.responder.confirmed.Some?
    ensures st.initiator.confirmed.value.psk == st.responder.confirmed.value.psk
  {
    hide RecordInv, Held, Carried;
  }

  /**
    Progress. A proposal between two eligible peers, with installers that succeed and
    nobody else interfering, completes on both sides within fifteen rounds, however
    many messages and replies are lost inside the rounds.
  */
  lemma ExchangeCompletes(sc: Scene, st: State, before: Relationship, c: Cycle, rounds: seq<seq<Poll>>)
    requires Fresh(sc, st, before, c) && EligibleRounds(sc, st, rounds) && |rounds| >= 15
    ensures var end := RunRounds(sc, st, rounds);
            && Done(sc, end.initiator) && Done(sc, end.responder)
            && end.initiator.confirmed.Some? && end.responder.confirmed.Some?
            && end.initiator.confirmed.value.psk == end.responder.confirmed.value.psk
  {
    hide *;
    FreshInv(sc, st, before, c);
    RoundsComplete(sc, st, rounds);
    DoneAgrees(sc, RunRounds(sc, st, rounds));
  }
}
