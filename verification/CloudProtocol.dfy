/**
 Any number of devices sharing one workbook record through a server that accepts an upload
 only when its change tag is current.

 A tag is an index into the history of accepted versions. Messages may be lost, delayed,
 reordered and processed more than once, and an engine event may deliver any version the
 server ever accepted, so every real schedule of sends, acknowledgements, refusals and
 fetches is one of the runs below. Deleting the record starts a new epoch.
 */
module CloudProtocol {
  import opened Options
  import opened CloudRecord

  type DeviceId = nat

  datatype Version = Version(revision: nat, payload: Payload, notice: Option<Notice>, epoch: nat)

  /** `base` is the cached version the first save of the queued chain started from, if any. */
  datatype Device = Device(cell: Cell, base: Option<Tag>)

  /** A record on its way to the server, with what its workbook was queued against. */
  datatype Upload = Upload(record: Outgoing, expected: Option<nat>, base: Option<Tag>)

  datatype Acceptance = Acceptance(upload: Upload, replaced: Option<Version>)

  datatype World = World(
    devices: map<DeviceId, Device>,
    sent: set<Upload>,
    history: seq<Version>,
    current: Option<Tag>,
    epoch: nat,
    log: seq<Acceptance>)

  datatype Step =
    | Local(device: DeviceId, event: Event)
    | Send(sender: DeviceId)
    | Accept(upload: Upload)
    | Remove

  // ----- One step -----

  predicate IsVersionOf(w: World, copy: Copy) {
    && copy.tag < |w.history|
    && w.history[copy.tag].revision == copy.revision
    && w.history[copy.tag].payload == copy.payload
    && w.history[copy.tag].notice == copy.notice
  }

  function CopyIn(e: Event): Option<Copy> {
    match e
    case Recovered(copy) => Some(copy)
    case Fetched(copy) => copy
    case Saved(copy) => copy
    case SaveFailed(ServerRecordChanged(server)) => server
    case _ => None
  }

  function UploadOf(d: Device): Option<Upload> {
    var record := RecordToSave(d.cell);
    if record.None? then None
    else if d.cell.pending.None? then Some(Upload(record.value, None, None))
    else Some(Upload(record.value, d.cell.pending.value.expected, d.base))
  }

  /** The server's change-tag check. */
  predicate Admits(w: World, u: Upload) {
    w.current == u.record.tag
  }

  predicate Enabled(w: World, step: Step, guarded: bool) {
    match step
    case Local(id, e) =>
      && id in w.devices
      && (CopyIn(e).Some? ==> IsVersionOf(w, CopyIn(e).value))
      && (guarded && e.Recovered? ==>
            var c := w.devices[id].cell;
            c.pending.None? || c.pending.value.expected == Some(e.found.revision))
    case Send(id) => id in w.devices && w.devices[id].cell.queue.save && UploadOf(w.devices[id]).Some?
    case Accept(u) => u in w.sent && Admits(w, u)
    case Remove => w.current.Some?
  }

  function LocalStep(d: Device, e: Event): Device {
    var c := Apply(d.cell, e);
    if e.AccountChanged? then Device(c, None)
    else if d.cell.pending.None? && c.pending.Some? then
      Device(c, if d.cell.remote.Some? then Some(d.cell.remote.value.tag) else None)
    else Device(c, d.base)
  }

  function AcceptUpload(w: World, u: Upload): World
    requires w.current.Some? ==> w.current.value < |w.history|
  {
    var replaced := if w.current.Some? then Some(w.history[w.current.value]) else None;
    w.(history := w.history + [Version(u.record.revision, u.record.payload, u.record.notice, w.epoch)],
       current := Some(|w.history|),
       log := w.log + [Acceptance(u, replaced)])
  }

  predicate WellTagged(w: World) {
    w.current.Some? ==> w.current.value < |w.history|
  }

  function Next(w: World, step: Step, guarded: bool): (w': World)
    requires WellTagged(w) && Enabled(w, step, guarded)
    ensures WellTagged(w')
  {
    match step
    case Local(id, e) => w.(devices := w.devices[id := LocalStep(w.devices[id], e)])
    case Send(id) => w.(sent := w.sent + {UploadOf(w.devices[id]).value})
    case Accept(u) => AcceptUpload(w, u)
    case Remove => w.(current := None, epoch := w.epoch + 1)
  }

  // ----- Runs -----

  ghost predicate Initial(w: World) {
    && (forall id :: id in w.devices ==> w.devices[id] == Device(EMPTY, None))
    && w.sent == {} && w.history == [] && w.current.None? && w.log == []
  }

  predicate Legal(w: World, steps: seq<Step>, guarded: bool)
    requires WellTagged(w)
    decreases |steps|
  {
    steps == [] || (Enabled(w, steps[0], guarded) && Legal(Next(w, steps[0], guarded), steps[1..], guarded))
  }

  function Exec(w: World, steps: seq<Step>, guarded: bool): (w': World)
    requires WellTagged(w) && Legal(w, steps, guarded)
    ensures WellTagged(w')
    decreases |steps|
  {
    if steps == [] then w else Exec(Next(w, steps[0], guarded), steps[1..], guarded)
  }

  // ----- The invariant -----

  ghost predicate DeviceOk(w: World, d: Device) {
    && Coherent(d.cell)
    && (d.cell.remote.Some? ==> IsVersionOf(w, d.cell.remote.value))
    && (d.cell.pending.Some? && d.base.Some? ==>
          && d.base.value < |w.history|
          && d.cell.pending.value.expected == Some(w.history[d.base.value].revision))
  }

  ghost predicate UploadOk(w: World, u: Upload) {
    && (u.record.tag.Some? ==> u.record.tag.value < |w.history|)
    && (u.record.workbook && u.record.tag.Some? ==>
          && u.expected == Some(w.history[u.record.tag.value].revision)
          && u.record.revision > w.history[u.record.tag.value].revision)
    && (!u.record.workbook ==>
          && u.record.tag.Some?
          && u.record.revision == w.history[u.record.tag.value].revision
          && u.record.payload == w.history[u.record.tag.value].payload)
    && (u.base.Some? ==> u.base.value < |w.history| && u.expected == Some(w.history[u.base.value].revision))
  }

  /** Within one epoch revisions never fall, and a revision names one payload. */
  ghost predicate Ordered(earlier: Version, later: Version) {
    && earlier.epoch <= later.epoch
    && (earlier.epoch == later.epoch ==>
          && earlier.revision <= later.revision
          && (earlier.revision == later.revision ==> earlier.payload == later.payload))
  }

  ghost predicate HistoryOk(w: World) {
    && (forall i, j :: 0 <= i < j < |w.history| ==> Ordered(w.history[i], w.history[j]))
    && (forall i :: 0 <= i < |w.history| ==> w.history[i].epoch <= w.epoch)
    && (match w.current
        case None => forall i :: 0 <= i < |w.history| ==> w.history[i].epoch < w.epoch
        case Some(t) => t == |w.history| - 1 && w.history[t].epoch == w.epoch)
  }

  /** No lost update: what an accepted upload replaced is what it was queued against. */
  ghost predicate Faithful(a: Acceptance) {
    a.replaced.Some? ==>
      var version := a.replaced.value;
      if a.upload.record.workbook then a.upload.expected == Some(version.revision) && a.upload.record.revision > version.revision
      else a.upload.record.revision == version.revision && a.upload.record.payload == version.payload
  }

  /** A notice-only upload always replaces something. */
  ghost predicate NoticesReplace(a: Acceptance) {
    !a.upload.record.workbook ==> a.replaced.Some?
  }

  /** The content half: an upload whose chain began at a version of the same epoch replaces that content. */
  ghost predicate ReplacesItsBase(w: World, a: Acceptance) {
    a.upload.record.workbook && a.upload.base.Some? && a.upload.base.value < |w.history| && a.replaced.Some? ==>
      var version := w.history[a.upload.base.value];
      && version.epoch <= a.replaced.value.epoch
      && (version.epoch == a.replaced.value.epoch ==>
            version.revision == a.replaced.value.revision && version.payload == a.replaced.value.payload)
  }

  /** The content that an upload replaced is the content its chain of saves began at. */
  ghost predicate ReplacesWhatItSaw(w: World, a: Acceptance) {
    && a.replaced.Some? && a.upload.base.Some? && a.upload.base.value < |w.history|
    && w.history[a.upload.base.value].revision == a.replaced.value.revision
    && w.history[a.upload.base.value].payload == a.replaced.value.payload
  }

  ghost predicate LogOk(w: World) {
    forall i :: 0 <= i < |w.log| ==>
      && Faithful(w.log[i])
      && NoticesReplace(w.log[i])
      && ReplacesItsBase(w, w.log[i])
      && (w.log[i].upload.base.Some? ==> w.log[i].upload.base.value < |w.history|)
  }

  ghost predicate Inv(w: World) {
    && WellTagged(w)
    && HistoryOk(w)
    && (forall id :: id in w.devices ==> DeviceOk(w, w.devices[id]))
    && (forall u :: u in w.sent ==> UploadOk(w, u))
    && LogOk(w)
  }

  // ----- What a local step does to the device's own tags -----

  lemma RemoteComesFromCopies(c: Cell, e: Event)
    ensures Apply(c, e).remote == c.remote || Apply(c, e).remote.None? || Apply(c, e).remote == CopyIn(e)
  {
    match e
    case SaveFailed(error) =>
      match error {
        case ServerRecordChanged(server) =>
        case _ =>
      }
    case _ =>
  }

  lemma ExpectedIsFixedByTheFirstSave(c: Cell, e: Event)
    requires Coherent(c) && Apply(c, e).pending.Some?
    ensures c.pending.None? ==>
              && e.Save?
              && Apply(c, e).pending.value.expected == RevisionOf(c.remote)
    ensures c.pending.Some? && c.pending.value.expected.Some? ==>
              Apply(c, e).pending.value.expected == c.pending.value.expected
  {
    match e
    case SaveFailed(error) =>
      match error {
        case ServerRecordChanged(server) =>
        case _ =>
      }
    case _ =>
  }

  lemma LocalStepKeepsDeviceOk(w: World, d: Device, e: Event)
    requires DeviceOk(w, d)
    requires CopyIn(e).Some? ==> IsVersionOf(w, CopyIn(e).value)
    requires RecoveryIsSafe(d.cell, e)
    ensures DeviceOk(w, LocalStep(d, e))
  {
    StepKeepsCoherent(d.cell, e);
    RemoteComesFromCopies(d.cell, e);
    var after := Apply(d.cell, e);
    if after.pending.Some? && LocalStep(d, e).base.Some? {
      ExpectedIsFixedByTheFirstSave(d.cell, e);
    }
  }

  lemma UploadOfIsOk(w: World, d: Device)
    requires DeviceOk(w, d) && UploadOf(d).Some?
    ensures UploadOk(w, UploadOf(d).value)
  {
  }

  // ----- Accepting an upload -----

  lemma AcceptKeepsHistory(w: World, u: Upload)
    requires HistoryOk(w) && WellTagged(w) && UploadOk(w, u) && Admits(w, u)
    ensures HistoryOk(AcceptUpload(w, u))
  {
  }

  lemma AcceptanceIsFaithful(w: World, u: Upload)
    requires HistoryOk(w) && WellTagged(w) && UploadOk(w, u) && Admits(w, u)
    ensures var w' := AcceptUpload(w, u);
            var a := w'.log[|w.log|];
            Faithful(a) && NoticesReplace(a) && ReplacesItsBase(w', a)
  {
  }

  lemma AcceptKeepsLog(w: World, u: Upload)
    requires Inv(w) && u in w.sent && Admits(w, u)
    ensures LogOk(AcceptUpload(w, u))
  {
  }

  lemma AcceptKeepsInv(w: World, u: Upload)
    requires Inv(w) && u in w.sent && Admits(w, u)
    ensures Inv(AcceptUpload(w, u))
  {
    var w' := AcceptUpload(w, u);
    AcceptKeepsHistory(w, u);
    AcceptKeepsLog(w, u);
    forall id | id in w'.devices ensures DeviceOk(w', w'.devices[id]) {
      assert DeviceOk(w, w.devices[id]);
    }
    forall v | v in w'.sent ensures UploadOk(w', v) {
      assert UploadOk(w, v);
    }
  }

  lemma NextKeepsInv(w: World, step: Step)
    requires Inv(w) && Enabled(w, step, true)
    ensures Inv(Next(w, step, true))
  {
    var w' := Next(w, step, true);
    match step
    case Local(id, e) =>
      LocalStepKeepsDeviceOk(w, w.devices[id], e);
      forall other | other in w'.devices ensures DeviceOk(w', w'.devices[other]) {
        assert DeviceOk(w, w'.devices[other]);
      }
      forall u | u in w'.sent ensures UploadOk(w', u) {
        assert UploadOk(w, u);
      }
    case Send(id) =>
      UploadOfIsOk(w, w.devices[id]);
      forall u | u in w'.sent ensures UploadOk(w', u) {
        assert UploadOk(w, u);
      }
      forall other | other in w'.devices ensures DeviceOk(w', w'.devices[other]) {
        assert DeviceOk(w, w.devices[other]);
      }
    case Accept(u) =>
      AcceptKeepsInv(w, u);
    case Remove =>
      forall u | u in w'.sent ensures UploadOk(w', u) {
        assert UploadOk(w, u);
      }
      forall other | other in w'.devices ensures DeviceOk(w', w'.devices[other]) {
        assert DeviceOk(w, w.devices[other]);
      }
  }

  lemma {:induction false} RunKeepsInv(w: World, steps: seq<Step>)
    requires Inv(w) && Legal(w, steps, true)
    ensures Inv(Exec(w, steps, true))
    decreases |steps|
  {
    if steps != [] {
      NextKeepsInv(w, steps[0]);
      RunKeepsInv(Next(w, steps[0], true), steps[1..]);
    }
  }

  // ----- Main results -----

  /**
   Over every run of any number of devices, an accepted workbook upload replaced the revision it was
   queued against and raised it; an accepted notice left revision and payload alone.
   */
  lemma NoLostUpdate(w: World, steps: seq<Step>, i: nat)
    requires Initial(w) && Legal(w, steps, true)
    requires i < |Exec(w, steps, true).log|
    ensures Faithful(Exec(w, steps, true).log[i])
    ensures NoticesReplace(Exec(w, steps, true).log[i])
  {
    RunKeepsInv(w, steps);
  }

  /**
   It replaced the very content its chain of saves began at, with two exceptions: the chain began at
   no cached version, or the record was removed between that version and the one replaced.
   */
  lemma ReplacesWhatItSawUnless(w: World, steps: seq<Step>, i: nat)
    requires Initial(w) && Legal(w, steps, true)
    requires i < |Exec(w, steps, true).log|
    ensures var end := Exec(w, steps, true);
            var a := end.log[i];
            a.upload.record.workbook && a.replaced.Some? ==>
              || ReplacesWhatItSaw(end, a)
              || a.upload.base.None?
              || (a.upload.base.value < |end.history| && end.history[a.upload.base.value].epoch < a.replaced.value.epoch)
  {
    RunKeepsInv(w, steps);
    assert ReplacesItsBase(Exec(w, steps, true), Exec(w, steps, true).log[i]);
  }

  /** Between deletions a revision number fixes the content, whoever wrote it. */
  lemma RevisionFixesContent(w: World, steps: seq<Step>, i: nat, j: nat)
    requires Initial(w) && Legal(w, steps, true)
    requires i <= j < |Exec(w, steps, true).history|
    ensures Ordered(Exec(w, steps, true).history[i], Exec(w, steps, true).history[j])
  {
    RunKeepsInv(w, steps);
  }

  ghost predicate CachesOk(w: World) {
    forall id :: id in w.devices && w.devices[id].cell.remote.Some? ==> IsVersionOf(w, w.devices[id].cell.remote.value)
  }

  lemma NextKeepsCaches(w: World, step: Step, guarded: bool)
    requires WellTagged(w) && CachesOk(w) && Enabled(w, step, guarded)
    ensures CachesOk(Next(w, step, guarded))
  {
    match step
    case Local(id, e) => RemoteComesFromCopies(w.devices[id].cell, e);
    case _ =>
  }

  /** In every run, guarded or not, what a device has cached is a version the server accepted, under the tag it is cached with. */
  lemma {:induction false} CachesAreVersions(w: World, steps: seq<Step>, guarded: bool)
    requires WellTagged(w) && CachesOk(w) && Legal(w, steps, guarded)
    ensures CachesOk(Exec(w, steps, guarded))
    decreases |steps|
  {
    if steps != [] {
      NextKeepsCaches(w, steps[0], guarded);
      CachesAreVersions(Next(w, steps[0], guarded), steps[1..], guarded);
    }
  }

  // ----- Runs given by their states -----

  ghost predicate Leads(w: World, step: Step, w': World, guarded: bool) {
    WellTagged(w) && Enabled(w, step, guarded) && w' == Next(w, step, guarded)
  }

  /** A run given by its states. */
  ghost predicate Visits(steps: seq<Step>, states: seq<World>, guarded: bool) {
    && |states| == |steps| + 1
    && WellTagged(states[0])
    && (forall i :: 0 <= i < |steps| ==> Leads(states[i], steps[i], states[i + 1], guarded))
  }

  lemma {:induction false} VisitedRunIsLegal(steps: seq<Step>, states: seq<World>, guarded: bool)
    requires Visits(steps, states, guarded)
    ensures Legal(states[0], steps, guarded)
    ensures Exec(states[0], steps, guarded) == states[|steps|]
    decreases |steps|
  {
    if steps != [] {
      assert Leads(states[0], steps[0], states[1], guarded);
      forall i | 0 <= i < |steps[1..]|
        ensures Leads(states[1..][i], steps[1..][i], states[1..][i + 1], guarded)
      {
        assert Leads(states[i + 1], steps[i + 1], states[i + 1 + 1], guarded);
      }
      VisitedRunIsLegal(steps[1..], states[1..], guarded);
    }
  }
}
