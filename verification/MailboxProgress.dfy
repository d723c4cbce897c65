/**
  Progress against the mailbox itself: the calls of the two sides read and write its
  tables, while other clients and administrators go on using it.
*/
module MailboxProgress {
  import opened Results
  import opened Protocol
  import opened Mailbox
  import opened MailboxHistory
  import opened MailboxSafety
  import opened Engine
  import opened EngineFacts
  import opened Simulation
  import opened Duet
  import opened Progress
  import opened ProgressRuns

  // ---------------------------------------------------------------- Calls against the mailbox

  datatype Hall = Hall(log: Log, initiator: Relationship, responder: Relationship) {
    function At(side: bool): Relationship {
      if side then initiator else responder
    }
    function Put(side: bool, r: Relationship): Hall {
      if side then this.(initiator := r) else this.(responder := r)
    }
    function Seen(sc: Scene): State {
      State(RowOf(log.tables, sc.Key()), initiator, responder)
    }
  }

  /** Whatever the mailbox did since the last call, then a poll, and the moment at which its message arrives. */
  datatype Call = Call(events: seq<Event>, poll: Poll, moment: Moment)

  function Reached(h: Hall, call: Call): Hall {
    h.(log := RunLog(h.log, call.events))
  }

  function SubmitOf(sc: Scene, side: bool, m: Message, at: Moment): Event {
    SubmitEvent(SideId(sc.t, side), SideBundle(sc.t, side).wgPublicKey, SideId(sc.t, !side), m, at)
  }

  function AfterCall(sc: Scene, h: Hall, call: Call): Hall {
    var side := call.poll.side;
    var h' := Reached(h, call);
    var out := Reconcile(sc.Self(side), SideId(sc.t, !side), h'.At(side), RowOf(h'.log.tables, sc.Key()), call.poll.cycle);
    if out.result.Err? || !out.result.value.Send? then h'.Put(side, out.relationship)
    else
      var log := if call.poll.arrives then StepLog(h'.log, SubmitOf(sc, side, out.result.value.message, call.moment)) else h'.log;
      var noted := if call.poll.arrives && call.poll.acknowledged then out.relationship
                   else Postponed(out.relationship, call.poll.cycle.now, call.poll.random);
      h'.(log := log).Put(side, noted)
  }

  /** The others leave the row of this pair alone, and the mailbox is open to the pair when a message arrives. */
  predicate Undisturbed(sc: Scene, h: Hall, call: Call) {
    var s := Reached(h, call).log.tables;
    && PossibleRun(h.log, call.events) && RowOf(s, sc.Key()) == RowOf(h.log.tables, sc.Key())
    && call.poll.at == call.moment.now && (call.poll.arrives ==> Open(sc, s, call.moment))
  }

  function RunCalls(sc: Scene, h: Hall, calls: seq<Call>): Hall
    decreases |calls|
  {
    if |calls| == 0 then h else RunCalls(sc, AfterCall(sc, h, calls[0]), calls[1..])
  }

  predicate UndisturbedRun(sc: Scene, h: Hall, calls: seq<Call>)
    decreases |calls|
  {
    |calls| == 0 || (Undisturbed(sc, h, calls[0]) && UndisturbedRun(sc, AfterCall(sc, h, calls[0]), calls[1..]))
  }

  function Polls(calls: seq<Call>): (polls: seq<Poll>)
    ensures |polls| == |calls| && forall i :: 0 <= i < |calls| ==> polls[i] == calls[i].poll
  {
    seq(|calls|, i requires 0 <= i < |calls| => calls[i].poll)
  }

  function RunCallRounds(sc: Scene, h: Hall, rounds: seq<seq<Call>>): Hall
    decreases |rounds|
  {
    if |rounds| == 0 then h else RunCallRounds(sc, RunCalls(sc, h, rounds[0]), rounds[1..])
  }

  /** Rounds of calls that wait their backoff out, each serving both sides, with nobody else touching the pair's row. */
  predicate ServedRounds(sc: Scene, h: Hall, rounds: seq<seq<Call>>)
    decreases |rounds|
  {
    |rounds| == 0
    || (EligibleRun(sc, h.Seen(sc), Polls(rounds[0])) && Round(Polls(rounds[0])) && UndisturbedRun(sc, h, rounds[0])
        && ServedRounds(sc, RunCalls(sc, h, rounds[0]), rounds[1..]))
  }

  // ---------------------------------------------------------------- Agreement with polls

  lemma RowNamesKey(l: Log, k: RowKey)
    requires LogInv(l)
    ensures k in l.tables.exchanges ==> l.tables.exchanges[k].key == k
  {
    if k in l.tables.exchanges {
      CurrentRowOk(l, k);
    }
  }

  /** What a call sends is a line of the script. */
  lemma SentIsLine(sc: Scene, st: State, poll: Poll, out: Outcome) returns (kind: Kind)
    requires StateInv(sc, st) && Eligible(st, poll)
    requires out == Reconcile(sc.Self(poll.side), SideId(sc.t, !poll.side), st.At(poll.side), st.record, poll.cycle)
    requires out.result.Ok? && out.result.value.Send?
    ensures kind in ScriptKinds(poll.side) && out.result.value.message == Line(sc.t, poll.side, sc.Candidate(), kind)
    ensures sc.Valid() && sc.t.initiatorId < sc.t.responderId
  {
    var side := poll.side;
    SideInvOf(sc, st, side);
    CallCases(sc, side, st.record, st.At(side), poll.cycle);
    assert sc.Valid() && RecordInv(sc, st.record);
    hide Reconcile, RecordInv, SideInv, StateInv, Held;
    kind := LastKind(side, out.relationship.pending.value);
    LastLine(sc, side, st.record, out.relationship.pending.value);
  }

  lemma SubmitReaches(sc: Scene, l: Log, side: bool, kind: Kind, at: Moment)
    requires LogInv(l) && sc.Valid() && Open(sc, l.tables, at) && kind in ScriptKinds(side)
    ensures var m := Line(sc.t, side, sc.Candidate(), kind);
            RowOf(StepLog(l, SubmitOf(sc, side, m, at)).tables, sc.Key()) == Deliver(sc, RowOf(l.tables, sc.Key()), side, m, at.now)
  {
    RowNamesKey(l, sc.Key());
    LineIsAuthentic(sc.t, side, sc.Candidate(), kind);
    hide LogInv, Open, Line, Deliver, Submit, Message.ValidateShape, Message.Authenticate, Message.Confirm;
    SubmitDelivers(sc, l.tables, at, side, Line(sc.t, side, sc.Candidate(), kind));
  }

  lemma ReachedIsSeen(sc: Scene, h: Hall, call: Call)
    requires LogInv(h.log) && Undisturbed(sc, h, call)
    ensures LogInv(Reached(h, call).log) && Reached(h, call).Seen(sc) == h.Seen(sc)
  {
    RunKeepsInv(h.log, call.events);
  }

  /** The relationship that a poll or a call leaves with the side that it is of. */
  function Noted(poll: Poll, out: Outcome): Relationship {
    if out.result.Err? || !out.result.value.Send? || (poll.arrives && poll.acknowledged) then out.relationship
    else Postponed(out.relationship, poll.cycle.now, poll.random)
  }

  lemma TurnUnfolds(sc: Scene, st: State, poll: Poll, out: Outcome)
    requires out == Reconcile(sc.Self(poll.side), SideId(sc.t, !poll.side), st.At(poll.side), st.record, poll.cycle)
    ensures Turn(sc, st, poll)
            == st.(record := if out.result.Ok? && out.result.value.Send? && poll.arrives
                             then Deliver(sc, st.record, poll.side, out.result.value.message, poll.at) else st.record)
                 .Put(poll.side, Noted(poll, out))
  {
    hide Reconcile, Deliver, Postponed;
  }

  lemma CallUnfolds(sc: Scene, h: Hall, call: Call, out: Outcome)
    requires var side, h' := call.poll.side, Reached(h, call);
             out == Reconcile(sc.Self(side), SideId(sc.t, !side), h'.At(side), RowOf(h'.log.tables, sc.Key()), call.poll.cycle)
    ensures var h' := Reached(h, call);
            AfterCall(sc, h, call)
            == h'.(log := if out.result.Ok? && out.result.value.Send? && call.poll.arrives
                          then StepLog(h'.log, SubmitOf(sc, call.poll.side, out.result.value.message, call.moment)) else h'.log)
                 .Put(call.poll.side, Noted(call.poll, out))
  {
    hide Reconcile, StepLog, Postponed, Reached, RowOf;
  }

  lemma SeenAfter(sc: Scene, h: Hall, log: Log, side: bool, r: Relationship, record: Option<Exchange>)
    requires RowOf(log.tables, sc.Key()) == record
    ensures h.(log := log).Put(side, r).Seen(sc) == h.Seen(sc).(record := record).Put(side, r)
    ensures h.(log := log).Put(side, r).log == log
  {
  }

  /** Seen from the pair, a call against the mailbox is a poll. */
  lemma CallIsTurn(sc: Scene, h: Hall, call: Call)
    requires LogInv(h.log) && StateInv(sc, h.Seen(sc)) && Eligible(h.Seen(sc), call.poll) && Undisturbed(sc, h, call)
    ensures AfterCall(sc, h, call).Seen(sc) == Turn(sc, h.Seen(sc), call.poll) && LogInv(AfterCall(sc, h, call).log)
  {
    var side, st := call.poll.side, h.Seen(sc);
    var h' := Reached(h, call);
    ReachedIsSeen(sc, h, call);
    assert call.poll.at == call.moment.now && (call.poll.arrives ==> Open(sc, h'.log.tables, call.moment));
    assert st.record == RowOf(h'.log.tables, sc.Key()) && st.At(side) == h'.At(side) by { assert h'.Seen(sc) == st; }
    var out := Reconcile(sc.Self(side), SideId(sc.t, !side), st.At(side), st.record, call.poll.cycle);
    hide *;
    TurnUnfolds(sc, st, call.poll, out);
    CallUnfolds(sc, h, call, out);
    if out.result.Ok? && out.result.value.Send? && call.poll.arrives {
      var kind := SentIsLine(sc, st, call.poll, out);
      SubmitReaches(sc, h'.log, side, kind, call.moment);
      var e := SubmitOf(sc, side, out.result.value.message, call.moment);
      SubmitIsPossible(h'.log, sc, side, out.result.value.message, call.moment);
      StepKeepsInv(h'.log, e);
      SeenAfter(sc, h', StepLog(h'.log, e), side, Noted(call.poll, out), Deliver(sc, st.record, side, out.result.value.message, call.moment.now));
    } else {
      SeenAfter(sc, h', h'.log, side, Noted(call.poll, out), st.record);
    }
  }

  lemma SubmitIsPossible(l: Log, sc: Scene, side: bool, m: Message, at: Moment)
    ensures Possible(l.tables, SubmitOf(sc, side, m, at))
  {
  }

  lemma {:induction false} CallsArePolls(sc: Scene, h: Hall, calls: seq<Call>)
    requires LogInv(h.log) && StateInv(sc, h.Seen(sc)) && EligibleRun(sc, h.Seen(sc), Polls(calls)) && UndisturbedRun(sc, h, calls)
    ensures RunCalls(sc, h, calls).Seen(sc) == RunPolls(sc, h.Seen(sc), Polls(calls)) && LogInv(RunCalls(sc, h, calls).log)
    ensures StateInv(sc, RunCalls(sc, h, calls).Seen(sc))
    decreases |calls|
  {
    hide LogInv, StateInv, Eligible, Undisturbed, AfterCall, Turn, Hall.Seen;
    if |calls| > 0 {
      assert Polls(calls)[1..] == Polls(calls[1..]);
      CallIsTurn(sc, h, calls[0]);
      TurnLowers(sc, h.Seen(sc), calls[0].poll);
      CallsArePolls(sc, AfterCall(sc, h, calls[0]), calls[1..]);
    }
  }

  function PollRounds(rounds: seq<seq<Call>>): (r: seq<seq<Poll>>)
    ensures |r| == |rounds|
  {
    seq(|rounds|, i requires 0 <= i < |rounds| => Polls(rounds[i]))
  }

  lemma {:induction false} RoundsArePolls(sc: Scene, h: Hall, rounds: seq<seq<Call>>)
    requires LogInv(h.log) && StateInv(sc, h.Seen(sc)) && ServedRounds(sc, h, rounds)
    ensures EligibleRounds(sc, h.Seen(sc), PollRounds(rounds))
    ensures RunCallRounds(sc, h, rounds).Seen(sc) == RunRounds(sc, h.Seen(sc), PollRounds(rounds))
    decreases |rounds|
  {
    hide LogInv, StateInv, RunCalls, RunPolls, EligibleRun, UndisturbedRun, Round, Polls, Hall.Seen;
    if |rounds| > 0 {
      assert PollRounds(rounds)[1..] == PollRounds(rounds[1..]);
      CallsArePolls(sc, h, rounds[0]);
      RoundsArePolls(sc, RunCalls(sc, h, rounds[0]), rounds[1..]);
    }
  }

  /**
    Progress against the mailbox. A fresh proposal between two peers that the mailbox
    admits completes on both sides, with equal keys, within fifteen rounds of calls that
    read its row and submit to it, whatever else the mailbox does to other rows in between
    and however many messages and replies are lost inside the rounds.
  */
  lemma MailboxCompletes(sc: Scene, h: Hall, before: Relationship, c: Cycle, rounds: seq<seq<Call>>)
    requires LogInv(h.log) && Fresh(sc, h.Seen(sc), before, c) && ServedRounds(sc, h, rounds) && |rounds| >= 15
    ensures var end := RunCallRounds(sc, h, rounds);
            && Done(sc, end.initiator) && Done(sc, end.responder)
            && end.initiator.confirmed.Some? && end.responder.confirmed.Some?
            && end.initiator.confirmed.value.psk == end.responder.confirmed.value.psk
  {
    FreshInv(sc, h.Seen(sc), before, c);
    hide LogInv, Fresh, StateInv, Done, RunCallRounds, RunRounds, ServedRounds, EligibleRounds;
    RoundsArePolls(sc, h, rounds);
    ExchangeCompletes(sc, h.Seen(sc), before, c, PollRounds(rounds));
  }
}
