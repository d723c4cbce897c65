/** The admission service as it runs under its lock: state changed in place, refusals leaving it alone. */
module AdmissionService {
  import opened Results
  import opened Numbers
  import opened Admission

  class Service {
    const limits: Limits
    var all: Bucket
    var starts: Bucket
    var peers: map<int, Caller>
    var writes: nat
    var newWrites: nat

    function Contents(): State
      reads this
    {
      State(all, starts, peers, writes, newWrites)
    }

    /** Unusable limits are refused before anything is built. */
    static method Open(limits: Limits, now: nat) returns (service: Result<Service, Refusal>)
      ensures service.Ok? <==> limits.Accepted()
      ensures service.Err? ==> service.error == InvalidQuery
      ensures service.Ok? ==> fresh(service.value) && service.value.limits == limits && service.value.Contents() == NewState(limits, now)
    {
      if !limits.Accepted() { return Err(InvalidQuery); }
      var built := new Service(limits, now);
      return Ok(built);
    }

    constructor (limits: Limits, now: nat)
      requires limits.Accepted()
      ensures this.limits == limits && Contents() == NewState(limits, now)
    {
      this.limits := limits;
      all := NewBucket(limits.globalRate, limits.globalBurst, now);
      starts := NewBucket(limits.globalRate / 2, limits.globalBurst / 2, now);
      peers := map[];
      writes := limits.globalWrites;
      newWrites := limits.globalWrites - Max(limits.globalWrites / 4, 1);
    }

    /** Take from copies of the buckets, so that a refusal costs nothing. */
    static method Test(all: Bucket, starts: Bucket, isNew: bool, now: nat) returns (taken: Option<(Bucket, Bucket)>)
      ensures taken == TakeBoth(all, starts, isNew, now)
    {
      var copyAll, copyNew := all, starts;
      if isNew {
        var took := copyNew.Take(now).1;
        copyNew := copyNew.Take(now).0;
        if !took { return None; }
      }
      var passed := copyAll.Take(now).1;
      copyAll := copyAll.Take(now).0;
      if !passed { return None; }
      return Some((copyAll, copyNew));
    }

    /** Test the buckets, acquire the permits, and only then debit. */
    method AdmitCall(peer: int, isNew: bool, now: nat) returns (result: Result<Permit, Refusal>)
      modifies this
      ensures (Contents(), result) == Admit(limits, old(Contents()), peer, isNew, now)
    {
      hide TakeBoth, NewCaller;
      if peer !in peers && |peers| >= limits.peerIds { return Err(RateLimited); }
      var everyone := Test(all, starts, isNew, now);
      if everyone.None? { return Err(RateLimited); }
      if peer !in peers {
        peers := peers[peer := NewCaller(limits, now)];
      } else {
        assert peers == peers[peer := peers[peer]];
      }
      var caller := peers[peer];
      var own := Test(caller.all, caller.starts, isNew, now);
      if own.None? { return Err(RateLimited); }
      if writes == 0 || caller.writes == 0 { return Err(RateLimited); }
      if isNew && (newWrites == 0 || caller.newWrites == 0) { return Err(RateLimited); }
      writes := writes - 1;
      caller := caller.(writes := caller.writes - 1);
      if isNew {
        newWrites := newWrites - 1;
        caller := caller.(newWrites := caller.newWrites - 1);
      }
      caller := caller.(all := own.value.0, starts := own.value.1);
      peers := peers[peer := caller];
      assert peers == old(peers)[peer := caller];
      all, starts := everyone.value.0, everyone.value.1;
      return Ok(Permit(peer, isNew));
    }

    method DropPermit(p: Permit)
      modifies this`peers, this`writes, this`newWrites
      ensures Contents() == Release(old(Contents()), p)
    {
      if p.peer in peers {
        var caller := peers[p.peer];
        caller := caller.(writes := caller.writes + 1);
        writes := writes + 1;
        if p.isNew {
          caller := caller.(newWrites := caller.newWrites + 1);
          newWrites := newWrites + 1;
        }
        peers := peers[p.peer := caller];
      }
    }
  }
}
