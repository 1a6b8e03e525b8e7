/**
 The store's crash-safe commit: two manifests and a directory of payload files.

 Each manifest write and each payload delete is one atomic primitive, any of which may fail,
 and the process may die after any of them. The trace of an operation is the disk after each
 of its primitives, that is, every disk a crash could leave behind.
 */
module StateFile {
  import opened Options

  type FileName = string

  /** A stored state: the payload files it refers to, its other contents, and whether it carries the current sync-state version. */
  datatype Manifest = Manifest(files: set<FileName>, body: int, migrated: bool)

  datatype Blob = Readable(manifest: Manifest) | Unreadable

  datatype Disk = Disk(state: Option<Blob>, previous: Option<Blob>, payloads: set<FileName>)

  datatype LoadResult = Fresh | Loaded(manifest: Manifest) | Failed

  /** What start-up recovers: the state file, else the previous one, else nothing. */
  function Load(d: Disk): LoadResult {
    match (d.state, d.previous)
    case (Some(Readable(m)), _) => Loaded(m)
    case (_, Some(Readable(m))) => Loaded(m)
    case (None, None) => Fresh
    case _ => Failed
  }

  function FilesOf(b: Option<Blob>): set<FileName> {
    match b
    case Some(Readable(m)) => m.files
    case _ => {}
  }

  /** Every payload file named by either manifest exists. */
  predicate Intact(d: Disk) {
    FilesOf(d.state) + FilesOf(d.previous) <= d.payloads
  }

  // ----- Operations -----

  datatype Faults = Faults(previousFails: bool, stateFails: bool, copyFails: bool, undeletable: set<FileName>)

  datatype StoreState = StoreState(
    disk: Disk,
    memory: Manifest,
    last: Option<Manifest>,
    retired: set<FileName>,
    readFailed: bool)

  /**
   `Edit` writes new payload files, then refers to them, and may drop and retire others.
   `Persist` commits, deleting retired files in the given order. `Restart` loses all memory.
   */
  datatype Op =
    | Edit(written: set<FileName>, dropped: set<FileName>, retired: set<FileName>, body: int)
    | Persist(order: seq<FileName>, faults: Faults)
    | Restart(restartFaults: Faults)

  function ExpectedLoad(last: Option<Manifest>): LoadResult {
    if last.Some? then Loaded(last.value) else Fresh
  }

  /** The two manifest writes; the flag says whether both succeeded. */
  function WriteManifests(d: Disk, last: Option<Manifest>, data: Manifest, faults: Faults): (seq<Disk>, bool) {
    if last.Some? && faults.previousFails then ([], false)
    else
      var backed := if last.Some? then d.(previous := Some(Readable(last.value))) else d;
      var first := if last.Some? then [backed] else [];
      if faults.stateFails then (first, false)
      else (first + [backed.(state := Some(Readable(data)))], true)
  }

  function LastOf(d: Disk, trace: seq<Disk>): Disk {
    if trace == [] then d else trace[|trace| - 1]
  }

  /** The disks left by deleting the listed files one by one; an undeletable file stays. */
  function DeleteFiles(d: Disk, order: seq<FileName>, undeletable: set<FileName>): seq<Disk>
    decreases |order|
  {
    if order == [] then []
    else
      var d' := if order[0] in undeletable then d else d.(payloads := d.payloads - {order[0]});
      [d'] + DeleteFiles(d', order[1..], undeletable)
  }

  function Elements(order: seq<FileName>): set<FileName> {
    set f | f in order
  }

  /** The files a commit may delete: retired, and named neither by the new state nor by the last one. */
  function Deletable(s: StoreState): set<FileName> {
    s.retired - (s.memory.files + (if s.last.Some? then s.last.value.files else {}))
  }

  predicate Enabled(s: StoreState, op: Op) {
    op.Persist? && !s.readFailed ==> Elements(op.order) == Deletable(s)
  }

  function PersistTrace(s: StoreState, order: seq<FileName>, faults: Faults): seq<Disk> {
    var (writes, ok) := WriteManifests(s.disk, s.last, s.memory, faults);
    writes + (if ok then DeleteFiles(LastOf(s.disk, writes), order, faults.undeletable) else [])
  }

  /** Start-up adopts what it loads and commits the version migration if that is still due. */
  function RestartTrace(d: Disk, faults: Faults): (seq<Disk>, StoreState) {
    var loaded := Load(d);
    var blank := Manifest({}, 0, false);
    var recovering := d.state.Some? && d.state.value.Unreadable?;
    if loaded.Failed? || (recovering && faults.copyFails) then
      ([], StoreState(d, blank, None, {}, true))
    else
      var memory := if loaded.Loaded? then loaded.manifest else blank;
      var last := if loaded.Loaded? then Some(loaded.manifest) else None;
      if memory.migrated then ([], StoreState(d, memory, last, {}, false))
      else
        var data := memory.(migrated := true);
        var (writes, ok) := WriteManifests(d, last, data, faults);
        (writes, StoreState(LastOf(d, writes), data, if ok then Some(data) else last, {}, !ok))
  }

  function Trace(s: StoreState, op: Op): seq<Disk> {
    match op
    case Edit(written, _, _, _) => [s.disk.(payloads := s.disk.payloads + written)]
    case Persist(order, faults) => if s.readFailed then [] else PersistTrace(s, order, faults)
    case Restart(faults) => RestartTrace(s.disk, faults).0
  }

  function Step(s: StoreState, op: Op): StoreState {
    match op
    case Edit(written, dropped, retired, body) =>
      s.(disk := s.disk.(payloads := s.disk.payloads + written),
         memory := Manifest(s.memory.files + written - dropped, body, s.memory.migrated),
         retired := s.retired + retired)
    case Persist(order, faults) =>
      if s.readFailed then s
      else
        var ok := WriteManifests(s.disk, s.last, s.memory, faults).1;
        s.(disk := LastOf(s.disk, PersistTrace(s, order, faults)),
           last := if ok then Some(s.memory) else s.last,
           retired := if ok then s.retired - (Elements(order) - faults.undeletable) else s.retired)
    case Restart(faults) => RestartTrace(s.disk, faults).1
  }

  /** The state an operation is committing, when it commits one. */
  function Target(s: StoreState, op: Op): LoadResult {
    match op
    case Edit(_, _, _, _) => Load(s.disk)
    case Persist(_, _) => Loaded(s.memory)
    case Restart(_) =>
      match Load(s.disk) {
        case Loaded(m) => Loaded(m.(migrated := true))
        case Fresh => Loaded(Manifest({}, 0, true))
        case Failed => Failed
      }
  }

  // ----- Crash safety -----

  ghost predicate Inv(s: StoreState) {
    && Intact(s.disk)
    && (!s.readFailed ==>
          && Load(s.disk) == ExpectedLoad(s.last)
          && s.memory.files <= s.disk.payloads)
  }

  /** A crash here loses no state and no payload file. */
  ghost predicate CrashSafe(s: StoreState, op: Op, d: Disk) {
    Intact(d) && (Load(d) == Load(s.disk) || Load(d) == Target(s, op))
  }

  lemma ManifestWritesAreSafe(d: Disk, last: Option<Manifest>, data: Manifest, faults: Faults)
    requires Intact(d) && Load(d) == ExpectedLoad(last) && data.files <= d.payloads
    ensures var (writes, ok) := WriteManifests(d, last, data, faults);
            && (forall x :: x in writes ==> Intact(x) && x.payloads == d.payloads && Load(x) in {Load(d), Loaded(data)})
            && (ok ==> writes != [] && Load(LastOf(d, writes)) == Loaded(data)
                       && FilesOf(LastOf(d, writes).state) == data.files
                       && FilesOf(LastOf(d, writes).previous) == if last.Some? then last.value.files else {})
            && (!ok ==> Load(LastOf(d, writes)) == Load(d) && Intact(LastOf(d, writes)) && LastOf(d, writes).payloads == d.payloads)
  {
  }

  lemma {:induction false} DeletesAreSafe(d: Disk, order: seq<FileName>, undeletable: set<FileName>)
    requires Intact(d)
    requires Elements(order) !! FilesOf(d.state) + FilesOf(d.previous)
    ensures forall x :: x in DeleteFiles(d, order, undeletable) ==> Intact(x) && Load(x) == Load(d)
    ensures LastOf(d, DeleteFiles(d, order, undeletable)) == d.(payloads := d.payloads - (Elements(order) - undeletable))
    decreases |order|
  {
    if order != [] {
      assert Elements(order) == {order[0]} + Elements(order[1..]);
      var d' := if order[0] in undeletable then d else d.(payloads := d.payloads - {order[0]});
      DeletesAreSafe(d', order[1..], undeletable);
      assert d'.payloads - (Elements(order[1..]) - undeletable) == d.payloads - (Elements(order) - undeletable);
    } else {
      assert d.payloads - (Elements(order) - undeletable) == d.payloads;
    }
  }

  lemma PersistIsSafe(s: StoreState, order: seq<FileName>, faults: Faults)
    requires Inv(s) && !s.readFailed && Enabled(s, Persist(order, faults))
    ensures Inv(Step(s, Persist(order, faults)))
    ensures forall d :: d in PersistTrace(s, order, faults) ==> CrashSafe(s, Persist(order, faults), d)
  {
    ManifestWritesAreSafe(s.disk, s.last, s.memory, faults);
    var (writes, ok) := WriteManifests(s.disk, s.last, s.memory, faults);
    if ok {
      DeletesAreSafe(LastOf(s.disk, writes), order, faults.undeletable);
      var deletes := DeleteFiles(LastOf(s.disk, writes), order, faults.undeletable);
      assert LastOf(s.disk, writes + deletes) == LastOf(LastOf(s.disk, writes), deletes);
    } else {
      assert writes + [] == writes;
    }
  }

  lemma StepIsSafe(s: StoreState, op: Op)
    requires Inv(s) && Enabled(s, op)
    ensures Inv(Step(s, op))
    ensures forall d :: d in Trace(s, op) ==> CrashSafe(s, op, d)
  {
    match op
    case Edit(_, _, _, _) =>
    case Persist(order, faults) =>
      if !s.readFailed {
        PersistIsSafe(s, order, faults);
      }
    case Restart(faults) =>
      var loaded := Load(s.disk);
      if !loaded.Failed? {
        var memory := if loaded.Loaded? then loaded.manifest else Manifest({}, 0, false);
        ManifestWritesAreSafe(s.disk, if loaded.Loaded? then Some(loaded.manifest) else None, memory.(migrated := true), faults);
      }
  }

  function Run(s: StoreState, ops: seq<Op>): StoreState
    decreases |ops|
  {
    if ops == [] then s else Run(Step(s, ops[0]), ops[1..])
  }

  ghost predicate Legal(s: StoreState, ops: seq<Op>)
    decreases |ops|
  {
    ops == [] || (Enabled(s, ops[0]) && Legal(Step(s, ops[0]), ops[1..]))
  }

  /**
   Over any sequence of edits, commits with faults and restarts, a crash after any single write or
   delete of any operation leaves both manifests' files in place and loads the state before that
   operation or the one it commits; a library that could be read at the start can always be read.
   */
  lemma {:induction false} CrashSafety(s: StoreState, ops: seq<Op>, i: nat)
    requires Inv(s) && Legal(s, ops) && i < |ops|
    ensures var before := Run(s, ops[..i]);
            && Inv(before) && Enabled(before, ops[i])
            && (forall d :: d in Trace(before, ops[i]) ==>
                  && CrashSafe(before, ops[i], d)
                  && (!Load(s.disk).Failed? ==> !Load(d).Failed?))
            && (!Load(s.disk).Failed? ==> !Load(before.disk).Failed?)
    decreases i
  {
    StepIsSafe(s, ops[0]);
    if i == 0 {
      assert ops[..0] == [];
    } else {
      StepLoads(s, ops[0]);
      assert ops[..i][0] == ops[0] && ops[..i][1..] == ops[1..][..i - 1];
      CrashSafety(Step(s, ops[0]), ops[1..], i - 1);
    }
  }

  /** Between operations the disk loads the old state or the one the operation committed. */
  lemma StepLoads(s: StoreState, op: Op)
    requires Inv(s) && Enabled(s, op)
    ensures Load(Step(s, op).disk) == Load(s.disk) || Load(Step(s, op).disk) == Target(s, op)
    ensures op.Persist? && !s.readFailed && !op.faults.stateFails && !op.faults.previousFails ==>
              Load(Step(s, op).disk) == Loaded(s.memory)
  {
    StepIsSafe(s, op);
    match op
    case Edit(_, _, _, _) =>
    case Persist(order, faults) =>
      if !s.readFailed {
        var t := PersistTrace(s, order, faults);
        if t != [] {
          assert t[|t| - 1] in t;
        }
        PersistIsSafe(s, order, faults);
      }
    case Restart(faults) =>
      var t := RestartTrace(s.disk, faults).0;
      if t != [] {
        assert t[|t| - 1] in t;
      }
  }

  /** A commit deletes a retired file, or keeps it one commit longer because the last manifest names it. */
  lemma CommitDeletesRetiredFiles(s: StoreState, f: FileName, order: seq<FileName>, faults: Faults)
    requires Inv(s) && !s.readFailed && f in s.retired && f !in s.memory.files
    requires !faults.previousFails && !faults.stateFails && f !in faults.undeletable
    requires Enabled(s, Persist(order, faults))
    ensures var after := Step(s, Persist(order, faults));
            if s.last.Some? && f in s.last.value.files then f in after.retired && after.last == Some(s.memory)
            else f !in after.retired && f !in after.disk.payloads
  {
    ManifestWritesAreSafe(s.disk, s.last, s.memory, faults);
    var (writes, ok) := WriteManifests(s.disk, s.last, s.memory, faults);
    DeletesAreSafe(LastOf(s.disk, writes), order, faults.undeletable);
    var deletes := DeleteFiles(LastOf(s.disk, writes), order, faults.undeletable);
    assert LastOf(s.disk, writes + deletes) == LastOf(LastOf(s.disk, writes), deletes);
    assert f in Elements(order) <==> f in Deletable(s);
  }

  lemma DeleteFilesUnfolds(d: Disk, order: seq<FileName>, i: nat, undeletable: set<FileName>)
    requires i < |order|
    ensures var d' := if order[i] in undeletable then d else d.(payloads := d.payloads - {order[i]});
            var rest := DeleteFiles(d', order[i + 1..], undeletable);
            && DeleteFiles(d, order[i..], undeletable) == [d'] + rest
            && LastOf(d, [d'] + rest) == LastOf(d', rest)
    ensures Elements(order[i..]) == {order[i]} + Elements(order[i + 1..])
  {
  }

  // ----- The store in place -----

  class Store {
    var disk: Disk
    var diskState: Manifest
    var lastPersistedState: Option<Manifest>
    var retiredPayloadFiles: set<FileName>
    var stateReadFailed: bool
    ghost var trace: seq<Disk>

    ghost function State(): StoreState
      reads this
    {
      StoreState(disk, diskState, lastPersistedState, retiredPayloadFiles, stateReadFailed)
    }

    /** Start-up: load, then commit the version migration. */
    constructor (found: Disk, faults: Faults)
      ensures trace == RestartTrace(found, faults).0
      ensures State() == RestartTrace(found, faults).1
    {
      disk, lastPersistedState, retiredPayloadFiles, stateReadFailed := found, None, {}, false;
      diskState := Manifest({}, 0, false);
      trace := [];
      new;
      var loaded := Load(found);
      var recovering := found.state.Some? && found.state.value.Unreadable?;
      if loaded.Failed? || (recovering && faults.copyFails) {
        stateReadFailed := true;
        return;
      }
      if loaded.Loaded? {
        diskState, lastPersistedState := loaded.manifest, Some(loaded.manifest);
      }
      if !diskState.migrated {
        diskState := diskState.(migrated := true);
        var ok := WriteState(faults);
        stateReadFailed := !ok;
        assert trace == [] + WriteManifests(found, if loaded.Loaded? then Some(loaded.manifest) else None, diskState, faults).0;
      }
    }

    method WriteState(faults: Faults) returns (ok: bool)
      modifies this`disk, this`lastPersistedState, this`trace
      ensures var (writes, done) := WriteManifests(old(disk), old(lastPersistedState), diskState, faults);
              && ok == done
              && trace == old(trace) + writes
              && disk == LastOf(old(disk), writes)
      ensures lastPersistedState == if ok then Some(diskState) else old(lastPersistedState)
    {
      if lastPersistedState.Some? {
        if faults.previousFails {
          return false;
        }
        disk := disk.(previous := Some(Readable(lastPersistedState.value)));
        trace := trace + [disk];
      }
      if faults.stateFails {
        return false;
      }
      disk := disk.(state := Some(Readable(diskState)));
      trace := trace + [disk];
      lastPersistedState := Some(diskState);
      return true;
    }

    method Change(written: set<FileName>, dropped: set<FileName>, retired: set<FileName>, body: int)
      modifies this
      ensures State() == Step(old(State()), Edit(written, dropped, retired, body))
      ensures trace == old(trace) + Trace(old(State()), Edit(written, dropped, retired, body))
    {
      disk := disk.(payloads := disk.payloads + written);
      trace := trace + [disk];
      diskState := Manifest(diskState.files + written - dropped, body, diskState.migrated);
      retiredPayloadFiles := retiredPayloadFiles + retired;
    }

    method DeleteRetired(order: seq<FileName>, undeletable: set<FileName>)
      modifies this`disk, this`retiredPayloadFiles, this`trace
      ensures trace == old(trace) + DeleteFiles(old(disk), order, undeletable)
      ensures disk == LastOf(old(disk), DeleteFiles(old(disk), order, undeletable))
      ensures retiredPayloadFiles == old(retiredPayloadFiles) - (Elements(order) - undeletable)
    {
      ghost var start, whole := disk, DeleteFiles(disk, order, undeletable);
      var i := 0;
      while i < |order|
        invariant 0 <= i <= |order|
        invariant trace + DeleteFiles(disk, order[i..], undeletable) == old(trace) + whole
        invariant LastOf(disk, DeleteFiles(disk, order[i..], undeletable)) == LastOf(start, whole)
        invariant retiredPayloadFiles - (Elements(order[i..]) - undeletable)
               == old(retiredPayloadFiles) - (Elements(order) - undeletable)
      {
        DeleteFilesUnfolds(disk, order, i, undeletable);
        if order[i] !in undeletable {
          disk := disk.(payloads := disk.payloads - {order[i]});
          retiredPayloadFiles := retiredPayloadFiles - {order[i]};
        }
        trace := trace + [disk];
        i := i + 1;
      }
    }

    /** Commits the current state, then deletes what neither manifest needs, in the given order. */
    method Commit(order: seq<FileName>, faults: Faults) returns (ok: bool)
      requires Enabled(State(), Persist(order, faults))
      modifies this
      ensures State() == Step(old(State()), Persist(order, faults))
      ensures trace == old(trace) + Trace(old(State()), Persist(order, faults))
      ensures ok ==> lastPersistedState == Some(diskState)
    {
      if stateReadFailed {
        return false;
      }
      ok := WriteState(faults);
      ghost var writes := WriteManifests(old(disk), old(lastPersistedState), diskState, faults).0;
      if ok {
        ghost var start := disk;
        DeleteRetired(order, faults.undeletable);
        ghost var deletes := DeleteFiles(start, order, faults.undeletable);
        assert LastOf(old(disk), writes + deletes) == LastOf(start, deletes);
        assert old(trace) + writes + deletes == old(trace) + (writes + deletes);
      } else {
        assert writes + [] == writes;
      }
    }
  }
}
