/**
  The private state store: one file replaced by rename, written only by the handle
  that loaded or wrote its present contents. Faults and crashes may strike between
  any two of its steps.
*/
module Store {
  import opened Results

  /** A state that is saved; states are only ever told apart. */
  type Value = int

  const MAX_GENERATION: nat := 0xffff_ffff_ffff_ffff

  /** The contents of the state file: an envelope, or bytes that are none. */
  datatype Bytes = Envelope(version: nat, generation: nat, value: Value) | Noise(id: nat)

  /** A digest is named by the bytes that it was taken of. */
  datatype Digest = Digest(bytes: Bytes)

  datatype StoreError = Busy | Missing | Newer | Corrupt | Conflict | Io

  datatype Boundary = BeforeWrite | AfterFileSync | AfterRename | AfterDirectorySync

  /** The directory entry as processes see it, and as it survives a loss of power. */
  datatype Disk = Disk(present: bool, visible: Option<Bytes>, durable: Option<Bytes>)

  datatype Handle = Handle(generation: nat, isFresh: bool, digest: Option<Digest>)

  function Opened(d: Disk, create: bool): Result<(Disk, Handle), StoreError> {
    if !d.present && !create then Err(Missing)
    else Ok((d.(present := true, durable := d.visible), Handle(0, !d.present, None)))
  }

  function Loaded(d: Disk): Result<(Handle, Value), StoreError> {
    if d.visible.None? || d.visible.value.Noise? then Err(Corrupt)
    else
      var e := d.visible.value;
      if e.version > 1 then Err(Newer)
      else if e.version != 1 || e.generation == 0 then Err(Corrupt)
      else Ok((Handle(e.generation, false, Some(Digest(e))), e.value))
  }

  /** May this handle replace what is there now? */
  function Checked(d: Disk, h: Handle): Result<Unit, StoreError> {
    if h.generation + 1 > MAX_GENERATION then Err(Conflict)
    else if h.isFresh then (if d.visible.None? then Ok(Unit) else Err(Conflict))
    else if d.visible.None? || d.visible.value.Noise? then Err(Corrupt)
    else if d.visible.value.version > 1 then Err(Newer)
    else if d.visible.value.version != 1 then Err(Corrupt)
    else if d.visible.value.generation != h.generation then Err(Conflict)
    else if h.digest != Some(Digest(d.visible.value)) then Err(Conflict)
    else Ok(Unit)
  }

  function Next(h: Handle, value: Value): Bytes {
    Envelope(1, h.generation + 1, value)
  }

  /** Which steps of a save took place before it was struck at a boundary, if it was. */
  predicate Renames(strike: Option<Boundary>) {
    strike.None? || strike.value == AfterRename || strike.value == AfterDirectorySync
  }

  predicate Syncs(strike: Option<Boundary>) {
    strike.None? || strike.value == AfterDirectorySync
  }

  function Saved(d: Disk, h: Handle, value: Value, strike: Option<Boundary>): (Disk, Handle, Result<Unit, StoreError>) {
    match Checked(d, h)
    case Err(e) => (d, h, Err(e))
    case Ok(_) =>
      var bytes := Next(h, value);
      var renamed := if Renames(strike) then d.(visible := Some(bytes)) else d;
      var synced := if Syncs(strike) then renamed.(durable := renamed.visible) else renamed;
      if strike.Some? then (synced, h, Err(Io)) else (synced, Handle(h.generation + 1, false, Some(Digest(bytes))), Ok(Unit))
  }

  // ---------------------------------------------------------------- Runs

  datatype Event =
    | Open(create: bool)
    | Load
    | Save(value: Value, strike: Option<Boundary>)
    | Close
    | Crash(during: Option<(Value, Boundary)>, powerLost: bool)
    | Foreign(bytes: Option<Bytes>)

  /**
    The disk and the one handle that may hold its lock; and, for the record, the last
    save that succeeded, the saves since that failed only after their rename, and the
    bytes that the handle loaded or wrote.
  */
  datatype World = World(disk: Disk, handle: Option<Handle>, last: Option<Bytes>, late: set<Bytes>, known: set<Bytes>)

  function AfterSave(w: World, value: Value, strike: Option<Boundary>): World
    requires w.handle.Some?
  {
    var (disk, handle, result) := Saved(w.disk, w.handle.value, value, strike);
    var bytes := Next(w.handle.value, value);
    var reached := Checked(w.disk, w.handle.value).Ok? && Renames(strike);
    World(disk, Some(handle),
          if result.Ok? then Some(bytes) else w.last,
          if result.Ok? then {} else if reached then w.late + {bytes} else w.late,
          if result.Ok? then w.known + {bytes} else w.known)
  }

  function Step(w: World, e: Event): World {
    match e
    case Open(create) =>
      if w.handle.Some? then w
      else
        (match Opened(w.disk, create)
         case Err(_) => w
         case Ok((disk, handle)) => w.(disk := disk, handle := Some(handle), known := {}))
    case Load =>
      if w.handle.None? then w
      else
        (match Loaded(w.disk)
         case Err(_) => w
         case Ok((handle, _)) => w.(handle := Some(handle), known := w.known + {handle.digest.value.bytes}))
    case Save(value, strike) => if w.handle.None? then w else AfterSave(w, value, strike)
    case Close => w.(handle := None)
    case Crash(during, powerLost) =>
      var struck := if during.Some? && w.handle.Some? then AfterSave(w, during.value.0, Some(during.value.1)) else w;
      struck.(handle := None, disk := if powerLost then struck.disk.(visible := struck.disk.durable) else struck.disk)
    case Foreign(bytes) => w.(disk := w.disk.(visible := bytes))
  }

  function Run(w: World, events: seq<Event>): World
    decreases |events|
  {
    if |events| == 0 then w else Run(Step(w, events[0]), events[1..])
  }

  function NewWorld(): World {
    World(Disk(false, None, None), None, None, {}, {})
  }

  /** Only the store itself writes its file. */
  predicate Owned(events: seq<Event>) {
    forall i :: 0 <= i < |events| ==> !events[i].Foreign?
  }

  // ---------------------------------------------------------------- What every run keeps

  function GenerationOf(bytes: Option<Bytes>): nat {
    if bytes.Some? && bytes.value.Envelope? then bytes.value.generation else 0
  }

  /** The last successful save, or one that failed only after its rename. */
  predicate Expected(w: World, bytes: Option<Bytes>) {
    bytes == w.last || (bytes.Some? && bytes.value in w.late)
  }

  predicate WellFormed(bytes: Option<Bytes>) {
    bytes.Some? ==> bytes.value.Envelope? && bytes.value.version == 1 && bytes.value.generation > 0
  }

  ghost predicate OwnedInv(w: World) {
    && Expected(w, w.disk.visible) && Expected(w, w.disk.durable)
    && WellFormed(w.disk.visible) && WellFormed(w.disk.durable)
    && (w.disk.visible == w.disk.durable || GenerationOf(w.disk.durable) < GenerationOf(w.disk.visible))
    && (!w.disk.present ==> w.disk.visible.None? && w.handle.None?)
    && (w.handle.Some? && w.handle.value.isFresh ==> w.handle.value.generation == 0)
  }

  /** The handle's digest is of bytes that it loaded or wrote itself. */
  predicate HandleInv(w: World) {
    w.handle.Some? ==>
      (w.handle.value.digest.Some? ==> w.handle.value.digest.value.bytes in w.known)
      && (w.handle.value.isFresh ==> w.handle.value.digest.None?)
  }

  lemma SaveKeepsOwned(w: World, value: Value, strike: Option<Boundary>)
    requires OwnedInv(w) && w.handle.Some?
    ensures OwnedInv(AfterSave(w, value, strike))
    ensures var disk := AfterSave(w, value, strike).disk;
            disk.durable == w.disk.durable || GenerationOf(disk.durable) > GenerationOf(w.disk.durable)
    ensures var disk := AfterSave(w, value, strike).disk;
            disk.visible == w.disk.visible || GenerationOf(disk.visible) == GenerationOf(w.disk.visible) + 1
  {
  }

  /** A step never takes a durable generation back, and every replacement counts on by one. */
  lemma StepKeepsOwned(w: World, e: Event)
    requires OwnedInv(w) && !e.Foreign?
    ensures OwnedInv(Step(w, e))
    ensures var after := Step(w, e).disk.durable;
            after == w.disk.durable || GenerationOf(after) > GenerationOf(w.disk.durable)
  {
    match e
    case Save(value, strike) =>
      if w.handle.Some? { SaveKeepsOwned(w, value, strike); }
    case Crash(during, powerLost) =>
      if during.Some? && w.handle.Some? { SaveKeepsOwned(w, during.value.0, Some(during.value.1)); }
    case _ =>
  }

  lemma {:induction false} RunKeepsOwned(w: World, events: seq<Event>)
    requires OwnedInv(w) && Owned(events)
    ensures OwnedInv(Run(w, events))
    ensures var after := Run(w, events).disk.durable;
            after == w.disk.durable || GenerationOf(after) > GenerationOf(w.disk.durable)
    decreases |events|
  {
    if |events| > 0 {
      StepKeepsOwned(w, events[0]);
      hide OwnedInv, Step;
      RunKeepsOwned(Step(w, events[0]), events[1..]);
    }
  }

  lemma NewWorldIsOwned()
    ensures OwnedInv(NewWorld()) && HandleInv(NewWorld())
  {
  }

  /**
    Atomicity. Over every sequence of opens, loads and saves, with a fault or a crash at
    any boundary and with or without loss of power, a load that succeeds returns the
    last save that succeeded, or one since then that failed only after its rename.
  */
  lemma LoadsAreAtomic(events: seq<Event>)
    requires Owned(events)
    ensures var w := Run(NewWorld(), events);
            && (Loaded(w.disk).Ok? ==>
                  var v := Loaded(w.disk).value.1;
                  (w.last.Some? && w.last.value.Envelope? && w.last.value.value == v)
                  || exists b :: b in w.late && b.Envelope? && b.value == v)
            && (w.disk.visible.Some? ==> Loaded(w.disk).Ok?)
            && (w.last.Some? ==> w.disk.visible.Some?)
  {
    NewWorldIsOwned();
    RunKeepsOwned(NewWorld(), events);
    var w := Run(NewWorld(), events);
    assert w.disk.visible.Some? && w.disk.visible.value in w.late ==> Loaded(w.disk).Ok?;
  }

  /** Generations on disk only grow: what survives a loss of power later is newer than what would have survived before. */
  lemma GenerationsGrow(events: seq<Event>, more: seq<Event>)
    requires Owned(events) && Owned(more)
    ensures var before, after := Run(NewWorld(), events).disk, Run(Run(NewWorld(), events), more).disk;
            after.durable == before.durable || GenerationOf(after.durable) > GenerationOf(before.durable)
  {
    NewWorldIsOwned();
    RunKeepsOwned(NewWorld(), events);
    RunKeepsOwned(Run(NewWorld(), events), more);
  }

  // ---------------------------------------------------------------- Compare and swap

  lemma StepKeepsHandle(w: World, e: Event)
    requires HandleInv(w)
    ensures HandleInv(Step(w, e))
  {
  }

  lemma {:induction false} RunKeepsHandle(w: World, events: seq<Event>)
    requires HandleInv(w)
    ensures HandleInv(Run(w, events))
    decreases |events|
  {
    if |events| > 0 {
      StepKeepsHandle(w, events[0]);
      hide HandleInv, Step;
      RunKeepsHandle(Step(w, events[0]), events[1..]);
    }
  }

  /**
    Compare and swap. Whatever else writes the file in between, a save that replaces it
    replaces bytes that this very handle loaded or wrote, or nothing at all in a
    directory that it created; otherwise the file stays as it is.
  */
  lemma SavesReplaceOnlyKnownBytes(events: seq<Event>, value: Value, strike: Option<Boundary>)
    requires Run(NewWorld(), events).handle.Some?
    ensures var w := Run(NewWorld(), events);
            var disk := Saved(w.disk, w.handle.value, value, strike).0;
            disk.visible != w.disk.visible ==>
              if w.disk.visible.Some? then w.disk.visible.value in w.known else w.handle.value.isFresh
  {
    NewWorldIsOwned();
    RunKeepsHandle(NewWorld(), events);
  }

  /**
    A handle whose save failed after the rename is behind its own file: until it loads
    again, each of its saves is refused and leaves the disk alone.
  */
  lemma LateFailureNeedsReload(d: Disk, h: Handle, value: Value, strike: Boundary, next: Value, again: Option<Boundary>)
    requires Checked(d, h).Ok? && Renames(Some(strike))
    ensures var (disk, handle, result) := Saved(d, h, value, Some(strike));
            handle == h && result == Err(Io)
            && Saved(disk, h, next, again) == (disk, h, Err(Conflict))
            && Loaded(disk).Ok? && Checked(disk, Loaded(disk).value.0).Ok? == (h.generation + 2 <= MAX_GENERATION)
  {
  }

  // ---------------------------------------------------------------- When a save succeeds

  /** What the handle's digest is of has its generation. */
  predicate Matched(w: World) {
    w.handle.Some? && w.handle.value.digest.Some? ==>
      var h := w.handle.value;
      h.digest.value.bytes.Envelope? && h.digest.value.bytes.version == 1 && h.digest.value.bytes.generation == h.generation && !h.isFresh
  }

  lemma {:induction false} RunKeepsMatched(w: World, events: seq<Event>)
    requires Matched(w)
    ensures Matched(Run(w, events))
    decreases |events|
  {
    if |events| > 0 {
      StepKeepsMatched(w, events[0]);
      hide Matched, Step;
      RunKeepsMatched(Step(w, events[0]), events[1..]);
    }
  }

  lemma StepKeepsMatched(w: World, e: Event)
    requires Matched(w)
    ensures Matched(Step(w, e))
  {
  }

  /** The file holds what this handle loaded or wrote last, or there is none and the handle created the directory. */
  predicate InStep(w: World)
    requires w.handle.Some?
  {
    if w.disk.visible.Some? then w.handle.value.digest == Some(Digest(w.disk.visible.value)) else w.handle.value.isFresh
  }

  /**
    In every run of the store a save that nothing strikes succeeds exactly when the handle
    is in step with the file and generations are left; then a load returns what was
    saved, under the next generation, even after a loss of power, and the handle stays
    in step.
  */
  lemma SaveSucceedsExactlyWhen(events: seq<Event>, value: Value, strike: Option<Boundary>)
    requires Owned(events) && Run(NewWorld(), events).handle.Some?
    ensures var w := Run(NewWorld(), events);
            var (disk, handle, result) := Saved(w.disk, w.handle.value, value, strike);
            && (result.Ok? <==> strike.None? && InStep(w) && w.handle.value.generation < MAX_GENERATION)
            && (result.Ok? ==>
                  Loaded(disk) == Ok((handle, value)) && Loaded(disk.(visible := disk.durable)) == Ok((handle, value))
                  && handle.generation == w.handle.value.generation + 1
                  && InStep(w.(disk := disk, handle := Some(handle))))
            && (result.Err? && strike.None? ==> disk == w.disk && handle == w.handle.value)
  {
    NewWorldIsOwned();
    RunKeepsOwned(NewWorld(), events);
    RunKeepsHandle(NewWorld(), events);
    RunKeepsMatched(NewWorld(), events);
    assert Matched(NewWorld());
    hide Run;
  }

  /** A load brings the handle in step, and the creation of a directory does. */
  lemma HandlesComeInStep(w: World)
    ensures w.handle.Some? && Loaded(w.disk).Ok? ==> var after := Step(w, Load); after.handle.Some? && InStep(after)
    ensures w.handle.None? && !w.disk.present && w.disk.visible.None? ==>
              var after := Step(w, Event.Open(true)); after.handle.Some? && InStep(after)
  {
  }

  /**
    Opening needs a directory, or leave to create one, and makes durable what was
    visible; only the handle that created the directory is fresh.
  */
  lemma OpeningSettlesTheDirectory(d: Disk, create: bool)
    ensures Opened(d, create).Ok? <==> d.present || create
    ensures Opened(d, create).Err? ==> Opened(d, create).error == Missing
    ensures Opened(d, create).Ok? ==>
              var (disk, handle) := Opened(d, create).value;
              disk == Disk(true, d.visible, d.visible) && handle == Handle(0, !d.present, None)
  {
  }

  /** A load gives the value of a version 1 envelope with a generation, and tells newer versions from corruption. */
  lemma LoadReadsExactly(d: Disk)
    ensures Loaded(d).Ok? <==> exists g: nat, v: Value :: g > 0 && d.visible == Some(Envelope(1, g, v))
    ensures forall g: nat, v: Value :: g > 0 && d.visible == Some(Envelope(1, g, v)) ==>
              Loaded(d) == Ok((Handle(g, false, Some(Digest(Envelope(1, g, v)))), v))
    ensures Loaded(d) == Err(Newer) <==> d.visible.Some? && d.visible.value.Envelope? && d.visible.value.version > 1
    ensures Loaded(d).Err? ==> Loaded(d).error in {Newer, Corrupt}
  {
    if Loaded(d).Ok? {
      assert d.visible == Some(Envelope(1, d.visible.value.generation, d.visible.value.value));
    }
  }

  /** A save that is struck before its rename leaves everything as it was, so that it can be tried again. */
  lemma EarlyFaultsLeaveNoTrace(d: Disk, h: Handle, value: Value, strike: Boundary)
    requires strike == BeforeWrite || strike == AfterFileSync
    ensures var (disk, handle, result) := Saved(d, h, value, Some(strike));
            disk == d && handle == h && result.Err? && (Checked(d, h).Ok? ==> result == Err(Io))
  {
  }

  /** A directory that was created but never saved into can be neither loaded nor saved after a restart. */
  lemma AbandonedDirectoryStaysEmpty(d: Disk, create: bool, value: Value, strike: Option<Boundary>)
    requires d.present && d.visible.None?
    ensures Opened(d, create).Ok?
    ensures var (disk, handle) := Opened(d, create).value;
            Loaded(disk) == Err(Corrupt) && Saved(disk, handle, value, strike) == (disk, handle, Err(Corrupt))
  {
  }

  // ---------------------------------------------------------------- The store as it runs

  class StateDirectory {
    var present: bool
    var visible: Option<Bytes>
    var durable: Option<Bytes>
    var locked: bool

    function Contents(): Disk
      reads this
    {
      Disk(present, visible, durable)
    }

    constructor ()
      ensures Contents() == Disk(false, None, None) && !locked
    {
      present, visible, durable, locked := false, None, None, false;
    }
  }

  class Store {
    const directory: StateDirectory
    var generation: nat
    var isFresh: bool
    var digest: Option<Digest>

    function Contents(): Handle
      reads this
    {
      Handle(generation, isFresh, digest)
    }

    constructor Init(directory: StateDirectory, isFresh: bool)
      ensures this.directory == directory && Contents() == Handle(0, isFresh, None)
    {
      this.directory := directory;
      generation, digest := 0, None;
      this.isFresh := isFresh;
    }

    /** One owner at a time; the directory is created on request, and synced. */
    static method Open(directory: StateDirectory, create: bool) returns (result: Result<Store, StoreError>)
      modifies directory
      ensures old(directory.locked) ==> result == Err(Busy) && directory.Contents() == old(directory.Contents()) && directory.locked
      ensures !old(directory.locked) ==>
                match Opened(old(directory.Contents()), create)
                case Err(e) => result == Err(e) && directory.Contents() == old(directory.Contents()) && !directory.locked
                case Ok((disk, handle)) =>
                  result.Ok? && fresh(result.value) && result.value.directory == directory && directory.locked
                  && directory.Contents() == disk && result.value.Contents() == handle
    {
      if directory.locked { return Err(Busy); }
      var created := false;
      if !directory.present {
        if !create { return Err(Missing); }
        directory.present := true;
        created := true;
      }
      directory.locked := true;
      directory.durable := directory.visible;
      var store := new Store.Init(directory, created);
      return Ok(store);
    }

    method Load() returns (result: Result<Value, StoreError>)
      modifies this
      ensures match Loaded(directory.Contents())
              case Err(e) => result == Err(e) && Contents() == old(Contents())
              case Ok((handle, value)) => result == Ok(value) && Contents() == handle
    {
      if directory.visible.None? || directory.visible.value.Noise? { return Err(Corrupt); }
      var envelope := directory.visible.value;
      if envelope.version > 1 { return Err(Newer); }
      if envelope.version != 1 { return Err(Corrupt); }
      if envelope.generation == 0 { return Err(Corrupt); }
      generation := envelope.generation;
      isFresh := false;
      digest := Some(Digest(envelope));
      return Ok(envelope.value);
    }

    /** Check, write and sync a temporary file, rename it over the state, sync the directory, and only then advance. */
    method SaveChecked(value: Value, strike: Option<Boundary>) returns (result: Result<Unit, StoreError>)
      modifies this, directory`visible, directory`durable
      ensures (directory.Contents(), Contents(), result) == Saved(old(directory.Contents()), old(Contents()), value, strike)
    {
      if generation + 1 > MAX_GENERATION { return Err(Conflict); }
      if isFresh {
        if directory.visible.Some? { return Err(Conflict); }
      } else {
        if directory.visible.None? || directory.visible.value.Noise? { return Err(Corrupt); }
        var current := directory.visible.value;
        if current.version > 1 { return Err(Newer); }
        if current.version != 1 { return Err(Corrupt); }
        if current.generation != generation { return Err(Conflict); }
        if digest != Some(Digest(current)) { return Err(Conflict); }
      }
      var bytes := Envelope(1, generation + 1, value);
      if strike == Some(BeforeWrite) { return Err(Io); }
      if strike == Some(AfterFileSync) { return Err(Io); }
      directory.visible := Some(bytes);
      if strike == Some(AfterRename) { return Err(Io); }
      directory.durable := directory.visible;
      if strike == Some(AfterDirectorySync) { return Err(Io); }
      generation := generation + 1;
      isFresh := false;
      digest := Some(Digest(bytes));
      return Ok(Unit);
    }
  }
}
