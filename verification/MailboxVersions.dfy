/**
  Where a version in the mailbox log comes from: an earlier version of the same row
  with the same receipts, or one message that a client submitted.
*/
module MailboxVersions {
  import opened Protocol
  import opened Mailbox
  import opened MailboxHistory
  import opened MailboxSafety

  ghost predicate Extends(l: Log, l': Log) {
    forall k :: k in l.history ==> k in l'.history && l.history[k] <= l'.history[k]
  }

  /** Every row kept its receipts and its transcript, if it is still there. */
  ghost predicate KeepsReceipts(before: map<RowKey, Exchange>, after: map<RowKey, Exchange>) {
    forall k :: k in after ==>
      k in before && after[k].receipts == before[k].receipts && after[k].transcriptHash == before[k].transcriptHash
  }

  /** The version repeats the receipts of the row that it replaces. */
  ghost predicate FromRow(s: Tables, k: RowKey, v: Exchange) {
    k in s.exchanges && v.receipts == s.exchanges[k].receipts && v.transcriptHash == s.exchanges[k].transcriptHash
  }

  /** The version was written because `m` was accepted, as a further message or as a proposal. */
  ghost predicate FromMessage(s: Tables, k: RowKey, v: Exchange, m: Message) {
    && RecordOk(k, v)
    && DigestOf(m) in v.receipts
    && if FromPrior(s, k, v, m) then true
       else
         v.receipts == [DigestOf(m)] && v.transcriptHash.Sha3?
         && k.initiatorId in s.bundles && v.transcriptHash.transcript.initiator == s.bundles[k.initiatorId].bundle
         && k.responderId in s.bundles && v.transcriptHash.transcript.responder == s.bundles[k.responderId].bundle
  }

  ghost predicate FromPrior(s: Tables, k: RowKey, v: Exchange, m: Message) {
    k in s.exchanges && v.receipts == s.exchanges[k].receipts + [DigestOf(m)] && v.transcriptHash == s.exchanges[k].transcriptHash
  }

  ghost predicate Sourced(l: Log, e: Event, k: RowKey, v: Exchange) {
    FromRow(l.tables, k, v) || (e.SubmitEvent? && FromMessage(l.tables, k, v, e.message))
  }

  lemma SweptKeepsReceipts(s: Tables, now: nat)
    ensures KeepsReceipts(s.exchanges, Swept(s, now).exchanges)
  {
    hide PairAllowed;
  }

  lemma RegisteredKeepsReceipts(s: Tables, id: int, key: B32, request: Registration, at: Moment)
    requires RegisterInner(s, id, key, request, at).Ok?
    ensures KeepsReceipts(s.exchanges, RegisterInner(s, id, key, request, at).value.0.exchanges)
  {
  }

  lemma LoggedExtends(l: Log, after: Tables)
    ensures Extends(l, Logged(l, after))
    ensures forall k, i: nat ::
              (k in Logged(l, after).history && i < |Logged(l, after).history[k]| && !(k in l.history && i < |l.history[k]|)) ==>
                k in after.exchanges && Logged(l, after).history[k][i] == after.exchanges[k]
  {
  }

  /** A logged change that keeps receipts only adds versions that repeat them. */
  lemma ReceiptsLogged(l: Log, after: Tables, e: Event, k: RowKey, i: nat)
    requires KeepsReceipts(l.tables.exchanges, after.exchanges)
    requires k in Logged(l, after).history && i < |Logged(l, after).history[k]|
    requires !(k in l.history && i < |l.history[k]|)
    ensures Sourced(l, e, k, Logged(l, after).history[k][i])
  {
    LoggedExtends(l, after);
  }

  lemma AppendedFromPrior(s: Tables, k: RowKey, kind: Kind, initiator: bool, m: Message)
    requires k in s.exchanges && s.exchanges[k].key == k
    requires SubmitExisting(s.exchanges[k], kind, initiator, m).Ok? && SubmitExisting(s.exchanges[k], kind, initiator, m).value.stored
    ensures var r := SubmitExisting(s.exchanges[k], kind, initiator, m).value.record;
            r.key == k && FromPrior(s, k, r, m) && DigestOf(m) in r.receipts
  {
    hide Message.Authenticate, Decision.Advance;
  }

  lemma ProposedFromBundles(s: Tables, id: int, other: int, k: RowKey, first: Bundle, second: Bundle, m: Message, at: Moment)
    requires SubmitProposal(s, id, other, k, first, second, m, at).Ok?
    ensures var r := SubmitProposal(s, id, other, k, first, second, m, at).value.record;
            r.key == k && r.receipts == [DigestOf(m)] && r.transcriptHash.Sha3?
            && r.transcriptHash.transcript.initiator == first && r.transcriptHash.transcript.responder == second
  {
    hide Message.Authenticate, ActiveCount, WithinBudget;
  }

  lemma SubmittedIsSourced(l: Log, id: int, key: B32, other: int, m: Message, at: Moment)
    requires LogInv(l)
    requires SubmitInner(l.tables, id, key, other, m, at).Ok? && SubmitInner(l.tables, id, key, other, m, at).value.stored
    ensures var r := SubmitInner(l.tables, id, key, other, m, at).value.record;
            FromMessage(l.tables, r.key, r, m)
  {
    hide SubmitInner, SubmitExisting, SubmitProposal, RecordOk, LogInv, Supersedes, PairAllowed, Message.ValidateShape, FromPrior;
    SubmitRowStep(l, id, key, other, m, at);
    SubmitCases(l.tables, id, key, other, m, at);
    var row := RowKey(m.header.initiatorId, m.header.responderId, m.header.initiatorBundleId, m.header.responderBundleId);
    if row in l.tables.exchanges && m.header.sequence == l.tables.exchanges[row].sequence {
      CurrentRowKey(l, row);
      AppendedFromPrior(l.tables, row, m.ValidateShape().value, id < other, m);
    } else {
      ProposedFromBundles(l.tables, id, other, row, l.tables.bundles[row.initiatorId].bundle, l.tables.bundles[row.responderId].bundle, m, at);
    }
  }

  lemma CurrentRowKey(l: Log, k: RowKey)
    requires LogInv(l) && k in l.tables.exchanges
    ensures l.tables.exchanges[k].key == k
  {
    RowsNameTheirKey(l);
  }

  /** Reading FromMessage against the tables before the sweep instead of after it. */
  lemma SourcedBeforeSweep(s: Tables, swept: Tables, k: RowKey, v: Exchange, m: Message)
    requires FromMessage(swept, k, v, m)
    requires KeepsReceipts(s.exchanges, swept.exchanges) && swept.exchanges.Keys == s.exchanges.Keys && swept.bundles == s.bundles
    ensures FromMessage(s, k, v, m)
  {
    hide RecordOk;
  }

  lemma SubmitVersions(l: Log, e: Event, k: RowKey, i: nat)
    requires LogInv(l) && e.SubmitEvent?
    requires k in StepLog(l, e).history && i < |StepLog(l, e).history[k]|
    requires !(k in l.history && i < |l.history[k]|)
    ensures Sourced(l, e, k, StepLog(l, e).history[k][i])
  {
    var at := e.at;
    UnchangedKeepsLog(l);
    if at.now <= MAX_NUMBER {
      var swept := LogSwept(l, at.now);
      SweptKeepsInv(l, at.now);
      SweptKeepsReceipts(l.tables, at.now);
      UnchangedKeepsLog(swept);
      hide LogInv, RecordOk, SubmitInner, Swept, Sourced, FromMessage, FromRow, KeepsReceipts;
      var inner := SubmitInner(swept.tables, e.id, e.key, e.other, e.message, at);
      if k in swept.history && i < |swept.history[k]| {
        ReceiptsLogged(l, swept.tables, e, k, i);
        LoggedExtends(swept, Submit(l.tables, e.id, e.key, e.other, e.message, at).0);
      } else if inner.Ok? && inner.value.stored {
        var r := inner.value.record;
        var after := swept.tables.(exchanges := swept.tables.exchanges[r.key := r]);
        LoggedExtends(swept, after);
        SubmittedIsSourced(swept, e.id, e.key, e.other, e.message, at);
        SweptRows(l.tables, at.now);
        WrittenVersion(swept, r, k, i);
        SourcedBeforeSweep(l.tables, swept.tables, k, r, e.message);
        FromMessageIsSourced(l, e, k, r);
      }
    }
  }

  lemma FromMessageIsSourced(l: Log, e: Event, k: RowKey, v: Exchange)
    requires e.SubmitEvent? && FromMessage(l.tables, k, v, e.message)
    ensures Sourced(l, e, k, v)
  {
  }

  lemma SweptRows(s: Tables, now: nat)
    ensures Swept(s, now).exchanges.Keys == s.exchanges.Keys && Swept(s, now).bundles == s.bundles
  {
  }

  lemma WrittenVersion(l: Log, r: Exchange, k: RowKey, i: nat)
    requires var l' := Logged(l, l.tables.(exchanges := l.tables.exchanges[r.key := r]));
             k in l'.history && i < |l'.history[k]|
    requires !(k in l.history && i < |l.history[k]|)
    requires ChainInv(l)
    ensures k == r.key
    ensures Logged(l, l.tables.(exchanges := l.tables.exchanges[r.key := r])).history[k][i] == r
  {
    hide ChainOf;
  }

  /** Every transaction extends the log, and every version that it adds has a source. */
  lemma StepVersions(l: Log, e: Event, k: RowKey, i: nat)
    requires LogInv(l) && Possible(l.tables, e)
    requires k in StepLog(l, e).history && i < |StepLog(l, e).history[k]|
    requires !(k in l.history && i < |l.history[k]|)
    ensures Sourced(l, e, k, StepLog(l, e).history[k][i])
  {
    hide LogInv, Sourced, RegisterInner, SubmitInner, Recorded, SweptRecord;
    match e
    case SubmitEvent(_, _, _, _, _) => SubmitVersions(l, e, k, i);
    case RegisterEvent(id, key, request, at) =>
      RegisterVersions(l, e, k, i);
    case SweepEvent(now) =>
      SweptKeepsReceipts(l.tables, now);
      ReceiptsLogged(l, Sweep(l.tables, now).0, e, k, i);
    case DirectoryEvent(d) => ReceiptsLogged(l, WithDirectory(l.tables, d), e, k, i);
    case DisableEvent(id) => ReceiptsLogged(l, DisablePeer(l.tables, id).0, e, k, i);
    case AssociationEvent(visible) =>
      SweptKeepsReceipts(WithDirectory(l.tables, l.tables.directory.(visible := visible)), 0);
      ReceiptsLogged(l, DeleteAssociation(l.tables, visible), e, k, i);
    case SwitchEvent(enabled, managementReady) =>
      ReceiptsLogged(l, l.tables.(enabled := enabled, managementReady := managementReady), e, k, i);
  }

  lemma RegisterVersions(l: Log, e: Event, k: RowKey, i: nat)
    requires LogInv(l) && e.RegisterEvent?
    requires k in StepLog(l, e).history && i < |StepLog(l, e).history[k]|
    requires !(k in l.history && i < |l.history[k]|)
    ensures Sourced(l, e, k, StepLog(l, e).history[k][i])
  {
    var at := e.at;
    UnchangedKeepsLog(l);
    if at.now <= MAX_NUMBER {
      var swept := LogSwept(l, at.now);
      SweptKeepsReceipts(l.tables, at.now);
      SweptKeepsInv(l, at.now);
      UnchangedKeepsLog(swept);
      hide LogInv, RecordOk, RegisterInner, Swept;
      var after := Register(l.tables, e.id, e.key, e.request, at).0;
      LoggedExtends(swept, after);
      if k in swept.history && i < |swept.history[k]| {
        ReceiptsLogged(l, swept.tables, e, k, i);
      } else {
        if RegisterInner(swept.tables, e.id, e.key, e.request, at).Ok? {
          RegisteredKeepsReceipts(swept.tables, e.id, e.key, e.request, at);
        }
        ReceiptsLogged(swept, after, e, k, i);
      }
    }
  }

  lemma StepExtends(l: Log, e: Event)
    ensures Extends(l, StepLog(l, e))
  {
    match e
    case SubmitEvent(id, key, other, m, at) =>
      LoggedExtends(l, Swept(l.tables, at.now));
      LoggedExtends(LogSwept(l, at.now), Submit(l.tables, id, key, other, m, at).0);
    case RegisterEvent(id, key, request, at) =>
      LoggedExtends(l, Swept(l.tables, at.now));
      LoggedExtends(LogSwept(l, at.now), Register(l.tables, id, key, request, at).0);
    case _ => LoggedExtends(l, StepLog(l, e).tables);
  }
}
