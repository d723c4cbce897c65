/** What the messages that a record accepted say about its decision. */
module ReplayFacts {
  import opened Protocol
  import opened Mailbox
  import opened MailboxHistory
  import opened EngineFacts

  lemma {:induction false} ReplayStartsWithProposal(receipts: seq<MessageDigest>, k: RowKey)
    requires Replay(receipts, k).Ok?
    ensures |receipts| > 0 && receipts[0].messageType == Kind.Propose.Code() && receipts[0].senderId == k.initiatorId
  {
    if |receipts| > 1 {
      ReplayStartsWithProposal(receipts[..|receipts| - 1], k);
    }
  }

  lemma {:induction false} ReplayOrdered(receipts: seq<MessageDigest>, k: RowKey)
    requires Replay(receipts, k).Ok?
    ensures var d := Replay(receipts, k).value;
            OrderedFlags(d) && (d.phase == Phase.Complete <==> d.confirmed == BOTH)
            && (d.phase in {Phase.Proposed, Phase.Ready, Phase.Aborted} ==> d.installed == NEITHER && d.confirmed == NEITHER)
  {
    if |receipts| > 1 {
      ReplayOrdered(receipts[..|receipts| - 1], k);
    }
  }

  /** An accepted commit or receipt puts the record past commitment for good. */
  lemma {:induction false} ReplayPastCommit(receipts: seq<MessageDigest>, k: RowKey, i: nat)
    requires Replay(receipts, k).Ok? && i < |receipts|
    requires KindOf(receipts[i].messageType).Ok? && PastCommit(KindOf(receipts[i].messageType).value)
    ensures Replay(receipts, k).value.phase in {Phase.Committed, Phase.Complete}
  {
    if |receipts| > 1 && i < |receipts| - 1 {
      ReplayPastCommit(receipts[..|receipts| - 1], k, i);
    }
  }

  /** A set flag has the message that set it. */
  lemma {:induction false} ReplayFlag(receipts: seq<MessageDigest>, k: RowKey, side: bool, kind: Kind)
    requires Replay(receipts, k).Ok?
    requires (kind == Kind.Installed && Replay(receipts, k).value.installed.Of(side))
          || (kind == Kind.Confirmed && Replay(receipts, k).value.confirmed.Of(side))
    ensures exists i: nat :: i < |receipts| && receipts[i].messageType == kind.Code() && SenderIsInitiator(receipts[i], k) == side
  {
    var n := |receipts| - 1;
    assert n > 0;
    var before := Replay(receipts[..n], k).value;
    if (if kind == Kind.Installed then before.installed else before.confirmed).Of(side) {
      ReplayFlag(receipts[..n], k, side, kind);
      var i: nat :| i < n && receipts[..n][i].messageType == kind.Code() && SenderIsInitiator(receipts[..n][i], k) == side;
      assert receipts[i] == receipts[..n][i];
    } else {
      assert receipts[n].messageType == kind.Code() && SenderIsInitiator(receipts[n], k) == side;
    }
  }

  /** A counterpart message past commitment pins the record to this transcript, committed. */
  lemma WitnessedIsCommitted(k: RowKey, v: Exchange, other: Number, t: Transcript)
    requires RecordOk(k, v) && Witnessed(v.messages, other, t)
    ensures v.transcriptHash == Sha3(t) && v.decision.phase == Phase.Committed
  {
    var m :| m in v.messages && Witness(m, other, t);
    var i :| 0 <= i < |v.messages| && v.messages[i] == m;
    assert v.receipts[i] == DigestOf(m) && Faithful(v.receipts[i], v.transcriptHash.transcript);
    assert m.header.transcriptHash == Sha3(t) == v.transcriptHash;
    hide Replay;
    ReplayPastCommit(v.receipts, k, i);
  }
}
