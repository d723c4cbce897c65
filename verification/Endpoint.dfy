/**
  The endpoint as the client runs it: relationships changed in place, one per call.
  Each method is proved against the functions of module Engine.
*/
module Endpoint {
  import opened Results
  import opened Numbers
  import opened Protocol
  import opened Mailbox
  import opened Engine

  /** Records what is handed over, as the source's own stand-in for a kernel does. */
  class Installer {
    var installed: seq<Candidate>
    const succeeds: bool
    const handshake: Checked<bool>

    constructor (succeeds: bool, handshake: Checked<bool>)
      ensures installed == [] && this.succeeds == succeeds && this.handshake == handshake
    {
      installed := [];
      this.succeeds, this.handshake := succeeds, handshake;
    }

    method Install(candidate: Candidate) returns (result: Checked<Unit>)
      modifies this
      ensures installed == old(installed) + [candidate]
      ensures result == if succeeds then Ok(Unit) else Err(Error.Installer)
    {
      installed := installed + [candidate];
      result := if succeeds then Ok(Unit) else Err(Error.Installer);
    }
  }

  class EndpointState {
    const networkId: B16
    const peerId: Number
    const serverId: Number
    var bundle: Bundle
    var enrollment: Enrollment
    var registration: Registration
    var relationships: map<Number, Relationship>

    constructor (networkId: B16, peerId: Number, serverId: Number, bundle: Bundle)
      ensures relationships == map[]
      ensures Self() == Identity(networkId, peerId, serverId, bundle, Enrollment.Advertised)
    {
      this.networkId, this.peerId, this.serverId := networkId, peerId, serverId;
      this.bundle, enrollment := bundle, Enrollment.Advertised;
      registration := Registration(None, 1, Enabled, bundle, false);
      relationships := map[];
    }

    function Self(): Identity
      reads this
    {
      Identity(networkId, peerId, serverId, bundle, enrollment)
    }

    predicate Knows(other: Number)
      reads this
    {
      other != peerId && other != serverId && other in relationships
    }

    // ---------------------------------------------------------------- Reconciliation

    /** The fold over the counterpart's messages, one message at a time. */
    static method FoldMessages(messages: seq<Message>, other: Number, t: Transcript, candidate: Candidate, start: Decision)
      returns (decision: Decision, outcome: Checked<Unit>)
      ensures (decision, outcome) == Fold(messages, other, t, candidate, start)
    {
      decision, outcome := start, Ok(Unit);
      var i := 0;
      while i < |messages|
        invariant 0 <= i <= |messages|
        invariant Fold(messages, other, t, candidate, start) == Fold(messages[i..], other, t, candidate, decision)
      {
        var m := messages[i];
        assert messages[i..][0] == m && messages[i..][1..] == messages[i + 1..];
        if m.header.senderId == other {
          var shape := m.ValidateShape();
          if shape.Err? { return decision, Err(shape.error); }
          var trial := decision.Advance(shape.value, m.header.senderId == t.initiatorId);
          if trial.Ok? {
            var authentic := m.Authenticate(t);
            if authentic.Err? { return decision, Err(authentic.error); }
            var confirmed := m.Confirm(candidate);
            if confirmed.Err? { return decision, Err(confirmed.error); }
            decision := trial.value;
          }
        }
        i := i + 1;
      }
    }

    /** Sign the next message, advance the local decision, and queue it. */
    method Queue(r: Relationship, p: Pending, kind: Kind) returns (relationship: Relationship, result: Checked<Action>)
      ensures Quiet(relationship, result) == Emit(Self(), r, p, kind)
    {
      relationship := r.(pending := Some(p));
      var signed := Signed(p.transcript, kind, peerId, p.candidate, bundle.sigPublicKey);
      if signed.Err? { return relationship, Err(signed.error); }
      var advanced := p.decision.Advance(kind, peerId == p.transcript.initiatorId);
      if advanced.Err? { return relationship, Err(advanced.error); }
      var pending := p.(decision := advanced.value);
      pending := pending.(outbox := pending.outbox + [signed.value]);
      pending := pending.(attempts := 0, nextRetryAt := 0);
      return relationship.(pending := Some(pending)), Ok(Send(signed.value));
    }

    /** Act on the decision: commit, install, confirm, complete, or wait. */
    method Act(other: Number, r: Relationship, p: Pending, c: Cycle, installer: Installer)
      returns (relationship: Relationship, result: Checked<Action>)
      requires installer.succeeds == c.installSucceeds && installer.handshake == c.handshake
      modifies installer
      ensures var out := Drive(Self(), other, r, p, c);
              relationship == out.relationship && result == out.result
              && installer.installed == old(installer.installed) + (if out.installs.Some? then [out.installs.value] else [])
    {
      hide Emit;
      relationship := r.(pending := Some(p));
      result := Ok(Idle);
      match p.decision.phase {
        case Aborted => relationship := r.(pending := None);
        case Proposed =>
        case Ready =>
          if peerId < other { relationship, result := Queue(r, p, Kind.Commit); }
        case Committed =>
          if !p.installed {
            if peerId >= other || p.decision.installed.responder {
              var installed := installer.Install(p.candidate);
              if installed.Err? { return relationship, Err(Error.Installer); }
              relationship, result := Queue(r, p.(installed := true), Kind.Installed);
            }
          } else if !p.confirmed {
            if installer.handshake.Err? { return relationship, Err(Error.Installer); }
            if installer.handshake.value {
              relationship, result := Queue(r, p.(confirmed := true), Kind.Confirmed);
            }
          }
        case Complete =>
          var key := ConfirmedKey(bundle.bundleId, r.remote.bundleId, p.transcript.sequence, p.transcript.exchangeId,
                                  Sha3(p.transcript), Psk(p.candidate), c.now);
          relationship := relationship.(confirmed := Some(key));
          relationship := relationship.(priorPq := true, status := Status.Confirmed);
          relationship := relationship.(pending := None);
          result := Ok(Action.Complete);
      }
    }

    /** Adopt a terminal record, or fold the messages of an open one. */
    static method ReadRecord(p: Pending, remote: Option<Exchange>, other: Number) returns (decision: Decision, outcome: Checked<Unit>)
      ensures (decision, outcome) == Absorb(p, remote, other)
    {
      hide Fold;
      decision, outcome := p.decision, Ok(Unit);
      if Matches(remote, p) {
        if remote.value.decision.Terminal() && !p.decision.Terminal() {
          decision := remote.value.decision;
        } else {
          decision, outcome := FoldMessages(remote.value.messages, other, p.transcript, p.candidate, p.decision);
        }
      }
    }

    /** The relationship already has an exchange in flight. */
    method Resume(other: Number, r: Relationship, p: Pending, remote: Option<Exchange>, c: Cycle, installer: Installer)
      returns (relationship: Relationship, result: Checked<Action>)
      requires installer.succeeds == c.installSucceeds && installer.handshake == c.handshake
      modifies installer
      ensures var out := Continue(Self(), other, r, p, remote, c);
              relationship == out.relationship && result == out.result
              && installer.installed == old(installer.installed) + (if out.installs.Some? then [out.installs.value] else [])
    {
      hide Drive, Absorb, DurablySent;
      var decision, outcome := ReadRecord(p, remote, other);
      var pending := p.(decision := decision);
      if outcome.Err? { return r.(pending := Some(pending)), Err(outcome.error); }
      if pending.decision.phase != Phase.Aborted && !DurablySent(remote, pending, peerId)
         && pending.nextRetryAt <= c.now && |pending.outbox| > 0 {
        return r.(pending := Some(pending)), Ok(Send(pending.outbox[|pending.outbox| - 1]));
      }
      relationship, result := Act(other, r, pending, c, installer);
    }

    /** One durable step of one relationship; every other relationship is left alone. */
    method Reconcile(other: Number, remote: Option<Exchange>, c: Cycle, installer: Installer) returns (result: Checked<Action>)
      requires installer.succeeds == c.installSucceeds && installer.handshake == c.handshake
      modifies this`relationships, installer
      ensures !old(Knows(other)) ==>
                result == Err(Invalid) && relationships == old(relationships) && installer.installed == old(installer.installed)
      ensures old(Knows(other)) ==>
                var out := Engine.Reconcile(old(Self()), other, old(relationships[other]), remote, c);
                result == out.result && relationships == old(relationships)[other := out.relationship]
                && installer.installed == old(installer.installed) + (if out.installs.Some? then [out.installs.value] else [])
    {
      hide Continue, Start, Join;
      if other == peerId || other == serverId || other !in relationships { return Err(Invalid); }
      var r := relationships[other];
      if r.gated || r.status == Status.Blocked || enrollment == Enrollment.Retiring {
        assert relationships == relationships[other := r];
        return Ok(Idle);
      }
      var after: Relationship;
      if r.pending.Some? {
        after, result := Resume(other, r, r.pending.value, remote, c, installer);
      } else {
        var out := if peerId < other then Start(Self(), other, r, c) else Join(Self(), other, r, remote);
        OpeningInstallsNothing(Self(), other, r, remote, c);
        after, result := out.relationship, out.result;
      }
      relationships := relationships[other := after];
    }

    static lemma OpeningInstallsNothing(self: Identity, other: Number, r: Relationship, remote: Option<Exchange>, c: Cycle)
      ensures Start(self, other, r, c).installs == None && Join(self, other, r, remote).installs == None
    {
      hide Signed;
    }

    method NoteSendFailure(other: Number, now: nat, random: Byte) returns (result: Checked<Unit>)
      modifies this`relationships
      ensures if other in old(relationships) && Engine.NoteSendFailure(old(relationships[other]), now, random).Ok?
              then result == Ok(Unit)
                   && relationships == old(relationships)[other := Engine.NoteSendFailure(old(relationships[other]), now, random).value]
              else result == Err(Invalid) && relationships == old(relationships)
    {
      if other !in relationships { return Err(Invalid); }
      var r := relationships[other];
      if r.pending.None? { return Err(Invalid); }
      var pending := r.pending.value;
      pending := pending.(attempts := Min(pending.attempts + 1, MAX_U32));
      var bound := Min(BACKOFF_CAP, Pow2(Min(pending.attempts, 6)));
      var jitter := random % bound;
      pending := pending.(nextRetryAt := Min(now + Min(jitter + 1, BACKOFF_CAP), MAX_U64));
      relationships := relationships[other := r.(pending := Some(pending))];
      return Ok(Unit);
    }

    // ---------------------------------------------------------------- Directory

    /** A bundle fetched from the directory: a new relationship, or a refreshed one. */
    method ObserveRemote(other: Number, advertised: Bundle, lifecycle: Lifecycle) returns (result: Checked<Unit>)
      modifies this`relationships
      ensures relationships.Keys <= old(relationships).Keys + {other}
      ensures forall q :: q in old(relationships) && q != other ==> q in relationships && relationships[q] == old(relationships[q])
      ensures result.Err? ==> relationships == old(relationships)
      ensures other in old(relationships) && other != peerId && other != serverId ==>
                var observed := Observe(old(Self()), other, old(relationships[other]), advertised, lifecycle);
                result.Ok? == observed.Ok? && (result.Ok? ==> other in relationships && relationships[other] == observed.value)
      ensures other !in old(relationships) && result.Ok? ==>
                lifecycle == Enabled && other in relationships && relationships[other] == NewRelationship(advertised)
    {
      if other == peerId || other == serverId { return Err(Invalid); }
      if other !in relationships {
        if lifecycle == Lifecycle.Retired { return Err(Invalid); }
        relationships := relationships[other := NewRelationship(advertised)];
        return Ok(Unit);
      }
      var r := relationships[other];
      if advertised.bundleRevision < r.remote.bundleRevision
         || (advertised.bundleRevision == r.remote.bundleRevision && advertised != r.remote) {
        return Err(Error.Conflict);
      }
      var previous := r.remote;
      r := r.(remote := advertised);
      if advertised.bundleId != previous.bundleId && r.pending.Some? {
        var slot := if peerId < other then r.pending.value.transcript.responder else r.pending.value.transcript.initiator;
        if slot.bundleId == previous.bundleId { r := r.(pending := None); }
      }
      if lifecycle == Lifecycle.Retired {
        r := r.(status := Status.Blocked);
        r := r.(pending := None);
      } else if r.status == Status.Blocked && !r.gated {
        r := r.(status := Status.Advertised);
      }
      relationships := relationships[other := r];
      return Ok(Unit);
    }

    // ---------------------------------------------------------------- Administration

    /** A fresh identity under the same interface key; only with nothing in flight. */
    method Replace(replacement: Bundle) returns (result: Checked<Unit>)
      modifies this
      ensures result.Ok? <==>
                (forall q :: q in old(relationships) ==> old(relationships[q]).pending.None?)
                && replacement.wgPublicKey == old(bundle).wgPublicKey && replacement.bundleId != old(bundle).bundleId
                && NextNumber(old(bundle).bundleRevision) == Ok(replacement.bundleRevision)
      ensures result.Err? ==> Self() == old(Self()) && relationships == old(relationships) && registration == old(registration)
      ensures result.Ok? ==>
                && bundle == replacement && enrollment == Enrollment.Registering
                && registration == Registration(Some(old(bundle).bundleRevision), 1, Enabled, replacement, false)
                && relationships == map q | q in old(relationships) :: Fenced(old(relationships[q]))
    {
      if exists q :: q in relationships && relationships[q].pending.Some? { return Err(Error.Conflict); }
      var next := NextNumber(bundle.bundleRevision);
      if replacement.wgPublicKey != bundle.wgPublicKey || replacement.bundleId == bundle.bundleId || next.Err?
         || replacement.bundleRevision != next.value {
        return Err(Invalid);
      }
      registration := Registration(Some(bundle.bundleRevision), 1, Enabled, replacement, false);
      bundle := replacement;
      enrollment := Enrollment.Registering;
      EditAll(Fenced);
      return Ok(Unit);
    }

    /** The same edit of every relationship, one after the other. */
    method EditAll(edit: Relationship -> Relationship)
      modifies this`relationships
      ensures relationships == map q | q in old(relationships) :: edit(old(relationships[q]))
    {
      ghost var before := relationships;
      var left := relationships.Keys;
      while left != {}
        invariant left <= before.Keys && relationships.Keys == before.Keys
        invariant forall q :: q in before ==> relationships[q] == if q in left then before[q] else edit(before[q])
        decreases |left|
      {
        var q :| q in left;
        left := left - {q};
        relationships := relationships[q := edit(relationships[q])];
      }
    }

    method AcceptRegistration(advertised: AdvertisedBundle) returns (result: Checked<Unit>)
      modifies this`enrollment
      ensures result.Ok? <==> advertised == AdvertisedBundle(1, old(registration).lifecycle, old(registration).bundle)
      ensures enrollment == if result.Err? then old(enrollment)
                            else if advertised.lifecycle == Enabled then Enrollment.Advertised else Enrollment.Retired
    {
      if advertised.bundle != registration.bundle || advertised.lifecycle != registration.lifecycle || advertised.pqVersion != 1 {
        return Err(Error.Conflict);
      }
      enrollment := if advertised.lifecycle == Enabled then Enrollment.Advertised else Enrollment.Retired;
      return Ok(Unit);
    }

    /** Explicit disable: keeps what is confirmed, drops what is in flight, and resubmits the same revision. */
    method Disable() returns (result: Checked<Unit>)
      modifies this
      ensures bundle == old(bundle)
      ensures result.Ok? <==> old(enrollment) != Enrollment.Retiring && old(registration).lifecycle != Lifecycle.Retired
      ensures result.Err? ==> Self() == old(Self()) && relationships == old(relationships) && registration == old(registration)
      ensures result.Ok? ==>
                && enrollment == Enrollment.Retiring
                && registration == Registration(Some(bundle.bundleRevision), 1, Lifecycle.Retired, bundle, false)
                && relationships == map q | q in old(relationships) :: Drained(old(relationships[q]))
    {
      if enrollment == Enrollment.Retiring || registration.lifecycle == Lifecycle.Retired { return Err(Error.Conflict); }
      registration := Registration(Some(bundle.bundleRevision), 1, Lifecycle.Retired, bundle, false);
      enrollment := Enrollment.Retiring;
      EditAll(Drained);
      return Ok(Unit);
    }

    /** Lost keys or a stale backup: block every relationship and forget its secrets. */
    method EmergencyRetire()
      modifies this
      ensures bundle == old(bundle) && enrollment == Enrollment.Retiring
      ensures registration == Registration(Some(bundle.bundleRevision), 1, Lifecycle.Retired, bundle, true)
      ensures relationships == map q | q in old(relationships) :: Discarded(old(relationships[q]))
    {
      registration := Registration(Some(bundle.bundleRevision), 1, Lifecycle.Retired, bundle, true);
      enrollment := Enrollment.Retiring;
      EditAll(Discarded);
    }
  }
}
