/** How the mailbox may grow over every run: bundle revisions, and the number of active exchanges. */
module MailboxGrowth {
  import opened Results
  import opened Numbers
  import opened Protocol
  import opened Mailbox
  import opened MailboxHistory
  import opened MailboxSafety

  // ---------------------------------------------------------------- Registrations

  ghost predicate NewGeneration(s: Tables, after: Tables, id: int, advertised: AdvertisedBundle) {
    && after.bundles == s.bundles[id := advertised] && after.visibility == s.visibility + 1
    && forall k :: k in after.exchanges ==> !k.Involves(id) && k in s.exchanges && after.exchanges[k] == s.exchanges[k]
  }

  lemma EnabledGeneration(s: Tables, id: int, advertised: AdvertisedBundle)
    requires !ActiveInvolving(s, id)
    ensures var grown := s.bundleHistory + {advertised.bundle.bundleId};
            var after := WithBundle(s.(bundleHistory := grown), id, advertised);
            NewGeneration(s, after, id, advertised) && after.bundleHistory == grown
  {
  }

  lemma RetiredGeneration(s: Tables, id: int, advertised: AdvertisedBundle)
    ensures NewGeneration(s, WithBundle(Terminated(s, id, "retired"), id, advertised), id, advertised)
  {
  }

  /** What a registration that is taken does to the bundle rows and to the caller's work. */
  lemma RegistrationAdvances(s: Tables, id: int, key: B32, request: Registration, at: Moment)
    requires RegisterInner(s, id, key, request, at).Ok?
    ensures var (after, advertised) := RegisterInner(s, id, key, request, at).value;
            && after.bundles == s.bundles[id := advertised]
            && advertised == AdvertisedBundle(1, request.lifecycle, request.bundle)
            && (after == s
                || (advertised.bundle.bundleRevision == (if id in s.bundles then s.bundles[id].bundle.bundleRevision + 1 else 1)
                    && after.visibility == s.visibility + 1
                    && (forall k :: k in after.exchanges ==> !k.Involves(id) && k in s.exchanges && after.exchanges[k] == s.exchanges[k])
                    && (if advertised.lifecycle == Enabled
                        then advertised.bundle.bundleId !in s.bundleHistory && advertised.bundle.bundleId in after.bundleHistory
                             && !ActiveInvolving(s, id)
                        else id in s.bundles && advertised.bundle.bundleId == s.bundles[id].bundle.bundleId
                             && (request.emergency || !ActiveInvolving(s, id)))))
  {
    if id in s.bundles {
      assert s.bundles[id := s.bundles[id]] == s.bundles;
    }
    var desired := AdvertisedBundle(request.pqVersion, request.lifecycle, request.bundle);
    if !ActiveInvolving(s, id) {
      EnabledGeneration(s, id, desired);
    }
    RetiredGeneration(s, id, desired);
    hide ServiceReady, WithinBudget, WithBundle, Terminated, ActiveInvolving, Caller;
  }

  lemma SweptKeepsBundles(s: Tables, now: nat)
    ensures Swept(s, now).bundles == s.bundles
  {
  }

  ghost predicate BundleAdvances(s: Tables, after: Tables, p: int) {
    p in s.bundles ==>
      p in after.bundles
      && (after.bundles[p] == s.bundles[p] || after.bundles[p].bundle.bundleRevision > s.bundles[p].bundle.bundleRevision)
  }

  lemma StepAdvancesBundle(l: Log, e: Event, p: int)
    ensures BundleAdvances(l.tables, StepLog(l, e).tables, p)
  {
    if e.RegisterEvent? && e.at.now <= MAX_NUMBER {
      var swept := Swept(l.tables, e.at.now);
      SweptKeepsBundles(l.tables, e.at.now);
      if RegisterInner(swept, e.id, e.key, e.request, e.at).Ok? {
        RegistrationAdvances(swept, e.id, e.key, e.request, e.at);
      }
    }
    hide RegisterInner, SubmitInner, Recorded, SweptRecord;
  }

  /** Over every run, a peer's advertised bundle only ever moves on to a higher revision. */
  lemma {:induction false} RevisionsOnlyGrow(l: Log, events: seq<Event>, p: int)
    ensures BundleAdvances(l.tables, RunLog(l, events).tables, p)
    decreases |events|
  {
    hide StepLog;
    if |events| > 0 {
      StepAdvancesBundle(l, events[0], p);
      RevisionsOnlyGrow(StepLog(l, events[0]), events[1..], p);
    }
  }

  // ---------------------------------------------------------------- Active exchanges

  function ActiveKeys(s: Tables, peer: Option<int>): set<RowKey> {
    set k | k in s.exchanges && s.exchanges[k].Active() && (peer.Some? ==> k.Involves(peer.value))
  }

  /** No limit on active exchanges is exceeded. */
  ghost predicate Bounded(s: Tables, limits: Limits) {
    ActiveCount(s, None) <= limits.globalActive && forall p :: ActiveCount(s, Some(p)) <= limits.peerActive
  }

  lemma CountIsCardinality(s: Tables, peer: Option<int>)
    ensures ActiveCount(s, peer) == |ActiveKeys(s, peer)|
  {
    assert ActiveKeys(s, peer) == set k | k in s.exchanges && s.exchanges[k].Active() && (peer.Some? ==> k.Involves(peer.value));
  }

  /** Rows that no transaction activates anew count no higher. */
  lemma FewerActive(s: Tables, after: Tables, peer: Option<int>)
    requires forall k :: k in after.exchanges && after.exchanges[k].Active() ==> k in s.exchanges && s.exchanges[k].Active()
    ensures ActiveCount(after, peer) <= ActiveCount(s, peer)
  {
    CountIsCardinality(s, peer);
    CountIsCardinality(after, peer);
    SubsetCardinality(ActiveKeys(after, peer), ActiveKeys(s, peer));
  }

  lemma FewerKeepsBounded(s: Tables, after: Tables, limits: Limits)
    requires Bounded(s, limits)
    requires forall k :: k in after.exchanges && after.exchanges[k].Active() ==> k in s.exchanges && s.exchanges[k].Active()
    ensures Bounded(after, limits)
  {
    hide ActiveCount;
    FewerActive(s, after, None);
    forall p
      ensures ActiveCount(after, Some(p)) <= limits.peerActive
    {
      FewerActive(s, after, Some(p));
    }
  }

  /** One more active row counts one more, for the peers of its pair. */
  lemma OneMoreActive(s: Tables, r: Exchange, peer: Option<int>)
    ensures var after := s.(exchanges := s.exchanges[r.key := r]);
            ActiveCount(after, peer) <= ActiveCount(s, peer) + if peer.None? || r.key.Involves(peer.value) then 1 else 0
  {
    var after := s.(exchanges := s.exchanges[r.key := r]);
    CountIsCardinality(s, peer);
    CountIsCardinality(after, peer);
    var before, now := ActiveKeys(s, peer), ActiveKeys(after, peer);
    if peer.None? || r.key.Involves(peer.value) {
      SubsetCardinality(now, before + {r.key});
    } else {
      SubsetCardinality(now, before);
    }
  }

  lemma ProposalKeepsBounded(s: Tables, id: int, other: int, key: RowKey, first: Bundle, second: Bundle, m: Message, at: Moment)
    requires Bounded(s, at.limits) && SubmitProposal(s, id, other, key, first, second, m, at).Ok?
    requires key.initiatorId == Min(id, other) && key.responderId == Max(id, other)
    ensures var r := SubmitProposal(s, id, other, key, first, second, m, at).value.record;
            Bounded(s.(exchanges := s.exchanges[r.key := r]), at.limits)
  {
    var r := SubmitProposal(s, id, other, key, first, second, m, at).value.record;
    assert r.key == key;
    assert ActiveCount(s, Some(id)) < at.limits.peerActive && ActiveCount(s, Some(other)) < at.limits.peerActive
           && ActiveCount(s, None) < at.limits.globalActive;
    hide ActiveCount, SubmitProposal;
    OneMoreActive(s, r, None);
    forall p
      ensures ActiveCount(s.(exchanges := s.exchanges[r.key := r]), Some(p)) <= at.limits.peerActive
    {
      OneMoreActive(s, r, Some(p));
    }
  }

  lemma SweptFewer(s: Tables, now: nat)
    ensures forall k :: k in Swept(s, now).exchanges && Swept(s, now).exchanges[k].Active() ==> k in s.exchanges && s.exchanges[k].Active()
  {
    hide PairAllowed;
  }

  lemma AcceptedFewer(r: Exchange, kind: Kind, initiator: bool, m: Message)
    requires SubmitExisting(r, kind, initiator, m).Ok? && SubmitExisting(r, kind, initiator, m).value.stored
    ensures r.Active() && SubmitExisting(r, kind, initiator, m).value.record.key == r.key
  {
    hide Message.Authenticate;
  }

  lemma SubmitKeepsBounded(l: Log, id: int, key: B32, other: int, m: Message, at: Moment)
    requires LogInv(l) && Bounded(l.tables, at.limits)
    requires SubmitInner(l.tables, id, key, other, m, at).Ok? && SubmitInner(l.tables, id, key, other, m, at).value.stored
    ensures var r := SubmitInner(l.tables, id, key, other, m, at).value.record;
            Bounded(l.tables.(exchanges := l.tables.exchanges[r.key := r]), at.limits)
  {
    var s := l.tables;
    SubmitCases(s, id, key, other, m, at);
    RowsNameTheirKey(l);
    var row := RowKey(m.header.initiatorId, m.header.responderId, m.header.initiatorBundleId, m.header.responderBundleId);
    hide LogInv, SubmitInner, SubmitProposal, SubmitExisting, Bounded, PairAllowed, Usable, Message.ValidateShape;
    if row in s.exchanges && m.header.sequence == s.exchanges[row].sequence {
      var kind := m.ValidateShape().value;
      AcceptedFewer(s.exchanges[row], kind, id < other, m);
      var r := SubmitExisting(s.exchanges[row], kind, id < other, m).value.record;
      FewerKeepsBounded(s, s.(exchanges := s.exchanges[r.key := r]), at.limits);
    } else {
      ProposalKeepsBounded(s, id, other, row, s.bundles[row.initiatorId].bundle, s.bundles[row.responderId].bundle, m, at);
    }
  }

  /** Every write is made under these limits. */
  predicate UnderLimits(e: Event, limits: Limits) {
    e.SubmitEvent? ==> e.at.limits == limits
  }

  lemma SubmitEventBounded(l: Log, e: Event, limits: Limits)
    requires LogInv(l) && e.SubmitEvent? && e.at.limits == limits && Bounded(l.tables, limits)
    ensures Bounded(StepLog(l, e).tables, limits)
  {
    if e.at.now <= MAX_NUMBER {
      var swept := LogSwept(l, e.at.now);
      SweptKeepsInv(l, e.at.now);
      SweptFewer(l.tables, e.at.now);
      hide LogInv, SubmitInner, Bounded, Recorded, Swept;
      FewerKeepsBounded(l.tables, swept.tables, limits);
      var inner := SubmitInner(swept.tables, e.id, e.key, e.other, e.message, e.at);
      if inner.Ok? && inner.value.stored {
        SubmitKeepsBounded(swept, e.id, e.key, e.other, e.message, e.at);
      }
    }
  }

  lemma OtherEventFewer(l: Log, e: Event)
    requires !e.SubmitEvent?
    ensures var after := StepLog(l, e).tables.exchanges;
            forall k :: k in after && after[k].Active() ==> k in l.tables.exchanges && l.tables.exchanges[k].Active()
  {
    match e
    case RegisterEvent(id, key, request, at) =>
      RegisterFewer(l.tables, id, key, request, at);
      hide Register, Recorded;
    case SweepEvent(now) => SweptFewer(l.tables, now); hide Swept, Recorded;
    case DirectoryEvent(d) => hide Recorded;
    case DisableEvent(id) => hide Recorded;
    case AssociationEvent(visible) =>
      SweptFewer(WithDirectory(l.tables, l.tables.directory.(visible := visible)), 0);
      hide Swept, Recorded;
    case SwitchEvent(_, _) => hide Recorded;
  }

  lemma RegisterFewer(s: Tables, id: int, key: B32, request: Registration, at: Moment)
    ensures var after := Register(s, id, key, request, at).0.exchanges;
            forall k :: k in after && after[k].Active() ==> k in s.exchanges && s.exchanges[k].Active()
  {
    if at.now <= MAX_NUMBER {
      var swept := Swept(s, at.now);
      SweptFewer(s, at.now);
      if RegisterInner(swept, id, key, request, at).Ok? {
        RegistrationAdvances(swept, id, key, request, at);
      }
      hide RegisterInner, Swept;
    }
  }

  /** Over every run under the same limits, the active exchanges of each peer, and of all, stay within them. */
  lemma {:induction false} ActiveWorkIsBounded(l: Log, events: seq<Event>, limits: Limits)
    requires LogInv(l) && PossibleRun(l, events) && Bounded(l.tables, limits)
    requires forall e :: e in events ==> UnderLimits(e, limits)
    ensures Bounded(RunLog(l, events).tables, limits)
    decreases |events|
  {
    hide LogInv, Possible, StepLog, Bounded;
    if |events| > 0 {
      var e := events[0];
      assert UnderLimits(e, limits);
      if e.SubmitEvent? {
        SubmitEventBounded(l, e, limits);
      } else {
        OtherEventFewer(l, e);
        FewerKeepsBounded(l.tables, StepLog(l, e).tables, limits);
      }
      StepKeepsInv(l, e);
      ActiveWorkIsBounded(StepLog(l, e), events[1..], limits);
    }
  }

  // ---------------------------------------------------------------- The registry

  lemma StepKeepsRegistry(l: Log, e: Event, limit: nat)
    requires |l.tables.bundleHistory| <= limit && (e.RegisterEvent? ==> e.at.limits.bundleIds <= limit)
    ensures |StepLog(l, e).tables.bundleHistory| <= limit
  {
    if e.RegisterEvent? && e.at.now <= MAX_NUMBER {
      var swept := Swept(l.tables, e.at.now);
      if RegisterInner(swept, e.id, e.key, e.request, e.at).Ok? {
        RegistryGrowsByOne(swept, e.id, e.key, e.request, e.at);
      }
    }
    hide RegisterInner, SubmitInner, Recorded, SweptRecord;
  }

  lemma RegistryGrowsByOne(s: Tables, id: int, key: B32, request: Registration, at: Moment)
    requires RegisterInner(s, id, key, request, at).Ok?
    ensures var grown := RegisterInner(s, id, key, request, at).value.0.bundleHistory;
            grown == s.bundleHistory || (grown == s.bundleHistory + {request.bundle.bundleId} && |grown| <= at.limits.bundleIds)
  {
    hide ServiceReady, Caller, ActiveInvolving;
  }

  predicate RegistryLimited(events: seq<Event>, limit: nat) {
    forall e :: e in events && e.RegisterEvent? ==> e.at.limits.bundleIds <= limit
  }

  /** Over every run the registry of bundle identifiers stays within its limit. */
  lemma {:induction false} RegistryIsBounded(l: Log, events: seq<Event>, limit: nat)
    requires |l.tables.bundleHistory| <= limit && RegistryLimited(events, limit)
    ensures |RunLog(l, events).tables.bundleHistory| <= limit
    decreases |events|
  {
    hide StepLog;
    if |events| > 0 {
      assert events[0] in events && forall e :: e in events[1..] ==> e in events;
      StepKeepsRegistry(l, events[0], limit);
      RegistryIsBounded(StepLog(l, events[0]), events[1..], limit);
    }
  }
}
