/**
 Where the guarantees of `CloudProtocol` stop, exactly: what a recovery may meet, and which queued
 uploads replace content that their device never saw. Each exception comes with the continuation
 that realises it from any state, and with a run from the start that leads there.
 */
module CloudBoundaries {
  import opened Options
  import opened CloudRecord
  import opened CloudProtocol

  // ----- Sending a queued upload over the current version -----

  lemma {:induction false} RunsJoin(w: World, first: seq<Step>, second: seq<Step>, guarded: bool)
    requires WellTagged(w) && Legal(w, first, guarded) && Legal(Exec(w, first, guarded), second, guarded)
    ensures Legal(w, first + second, guarded) && Exec(w, first + second, guarded) == Exec(Exec(w, first, guarded), second, guarded)
    decreases |first|
  {
    if first == [] {
      assert first + second == second;
    } else {
      assert (first + second)[1..] == first[1..] + second;
      RunsJoin(Next(w, first[0], guarded), first[1..], second, guarded);
    }
  }

  predicate HasCurrent(w: World) {
    w.current.Some? && w.current.value < |w.history|
  }

  function CurrentCopy(w: World): Copy
    requires HasCurrent(w)
  {
    var v := w.history[w.current.value];
    Copy(v.revision, v.payload, v.notice, w.current.value)
  }

  /** The device has an upload queued, and its cached copy is the current version. */
  predicate HoldsCurrent(w: World, id: DeviceId) {
    && HasCurrent(w) && id in w.devices
    && w.devices[id].cell.pending.Some?
    && w.devices[id].cell.remote == Some(CurrentCopy(w))
  }

  function UploadOver(w: World, id: DeviceId): Upload
    requires HoldsCurrent(w, id)
  {
    var d := w.devices[id];
    var p := d.cell.pending.value;
    var notice := if d.cell.notice.Some? then d.cell.notice.value.wanted else w.history[w.current.value].notice;
    Upload(Outgoing(true, w.current, p.revision, p.payload, notice), p.expected, d.base)
  }

  function Resend(w: World, id: DeviceId): seq<Step>
    requires HoldsCurrent(w, id)
  {
    [Local(id, Reseeded), Send(id), Accept(UploadOver(w, id))]
  }

  function Requeued(w: World, id: DeviceId): World
    requires HoldsCurrent(w, id)
  {
    w.(devices := w.devices[id := Device(Reseed(w.devices[id].cell), w.devices[id].base)])
  }

  function Resent(w: World, id: DeviceId): World
    requires HoldsCurrent(w, id)
  {
    Requeued(w, id).(sent := w.sent + {UploadOver(w, id)})
  }

  function AfterResend(w: World, id: DeviceId): World
    requires HoldsCurrent(w, id)
  {
    AcceptUpload(Resent(w, id), UploadOver(w, id))
  }

  lemma RequeueLeads(w: World, id: DeviceId)
    requires HoldsCurrent(w, id)
    ensures Leads(w, Local(id, Reseeded), Requeued(w, id), true)
  {
  }

  lemma SendLeads(w: World, id: DeviceId)
    requires HoldsCurrent(w, id)
    ensures Leads(Requeued(w, id), Send(id), Resent(w, id), true)
  {
  }

  lemma AcceptLeads(w: World, id: DeviceId)
    requires HoldsCurrent(w, id)
    ensures Leads(Resent(w, id), Accept(UploadOver(w, id)), AfterResend(w, id), true)
  {
  }

  /** Queued again, sent and accepted, the upload replaces the current version, whatever it holds. */
  lemma ResendReplacesCurrent(w: World, id: DeviceId)
    requires HoldsCurrent(w, id)
    ensures Legal(w, Resend(w, id), true) && Exec(w, Resend(w, id), true) == AfterResend(w, id)
    ensures AfterResend(w, id).log == w.log + [Acceptance(UploadOver(w, id), Some(w.history[w.current.value]))]
  {
    RequeueLeads(w, id);
    SendLeads(w, id);
    AcceptLeads(w, id);
    VisitedRunIsLegal(Resend(w, id), [w, Requeued(w, id), Resent(w, id), AfterResend(w, id)], true);
  }

  // ----- What a recovery may meet -----

  ghost predicate AllFaithful(w: World) {
    forall i :: 0 <= i < |w.log| ==> Faithful(w.log[i])
  }

  function Recovery(w: World, id: DeviceId): Step
    requires HasCurrent(w)
  {
    Local(id, Recovered(CurrentCopy(w)))
  }

  /**
   From any state the protocol can be in: once a device has recovered the current version, every
   upload accepted in every guarded continuation is faithful exactly when the recovery met no upload
   queued against another revision.
   */
  lemma RecoveryIsFaithfulIff(w: World, id: DeviceId)
    requires Inv(w) && id in w.devices && HasCurrent(w)
    ensures var after := Next(w, Recovery(w, id), false);
            (forall steps :: Legal(after, steps, true) ==> AllFaithful(Exec(after, steps, true)))
            <==> RecoveryIsSafe(w.devices[id].cell, Recovered(CurrentCopy(w)))
  {
    var after := Next(w, Recovery(w, id), false);
    if RecoveryIsSafe(w.devices[id].cell, Recovered(CurrentCopy(w))) {
      NextKeepsInv(w, Recovery(w, id));
      forall steps | Legal(after, steps, true) ensures AllFaithful(Exec(after, steps, true)) {
        RunKeepsInv(after, steps);
      }
    } else {
      UnsafeRecoveryLosesAnUpdate(w, id);
    }
  }

  /** The failing half: the queued upload goes out under the recovered tag and replaces a version it was not queued against. */
  lemma UnsafeRecoveryLosesAnUpdate(w: World, id: DeviceId)
    requires WellTagged(w) && id in w.devices && HasCurrent(w)
    requires !RecoveryIsSafe(w.devices[id].cell, Recovered(CurrentCopy(w)))
    ensures var after := Next(w, Recovery(w, id), false);
            && HoldsCurrent(after, id)
            && Legal(after, Resend(after, id), true)
            && !AllFaithful(Exec(after, Resend(after, id), true))
  {
    var after := Next(w, Recovery(w, id), false);
    ResendReplacesCurrent(after, id);
    var log := AfterResend(after, id).log;
    assert !Faithful(log[|w.log|]);
  }

  // ----- Which uploads replace content they never saw -----

  /** The device has an upload queued against the revision the server now holds. */
  predicate MatchesCurrent(w: World, id: DeviceId) {
    && HasCurrent(w) && id in w.devices
    && w.devices[id].cell.pending.Some?
    && w.devices[id].cell.pending.value.expected == Some(w.history[w.current.value].revision)
  }

  function Fetch(w: World, id: DeviceId): Step
    requires HasCurrent(w)
  {
    Local(id, Fetched(Some(CurrentCopy(w))))
  }

  /** Fetching the current version keeps such an upload queued. */
  lemma FetchKeepsMatchingUpload(w: World, id: DeviceId)
    requires Inv(w) && MatchesCurrent(w, id)
    ensures Enabled(w, Fetch(w, id), true)
    ensures var after := Next(w, Fetch(w, id), true);
            && HoldsCurrent(after, id) && after.devices[id].base == w.devices[id].base
            && after.devices[id].cell.pending == w.devices[id].cell.pending
            && after.history == w.history && after.current == w.current && after.log == w.log
  {
    assert DeviceOk(w, w.devices[id]);
  }

  /**
   From any state the protocol can be in: an upload queued against the revision the server holds can
   be fetched over, sent and accepted, and then it replaced what its chain saw exactly when that
   chain began at a cached version with the server's present content. It did whenever that version
   is of the present epoch; with no such version, or one from before a removal, nothing prevents the rest.
   */
  lemma MatchingUploadReplacesCurrent(w: World, id: DeviceId)
    requires Inv(w) && MatchesCurrent(w, id)
    ensures var after := Next(w, Fetch(w, id), true);
            var end := AfterResend(after, id);
            var a := end.log[|w.log|];
            var base := w.devices[id].base;
            && Legal(after, Resend(after, id), true) && Exec(after, Resend(after, id), true) == end
            && a.upload.record.workbook && a.upload.record.payload == w.devices[id].cell.pending.value.payload
            && a.upload.base == base && a.replaced == Some(w.history[w.current.value])
            && (ReplacesWhatItSaw(end, a) <==> base.Some? && w.history[base.value].payload == w.history[w.current.value].payload)
            && (base.Some? && w.history[base.value].epoch == w.epoch ==> ReplacesWhatItSaw(end, a))
  {
    var after := Next(w, Fetch(w, id), true);
    FetchKeepsMatchingUpload(w, id);
    ResendReplacesCurrent(after, id);
    assert DeviceOk(w, w.devices[id]);
    var base := w.devices[id].base;
    if base.Some? && base.value < w.current.value {
      assert Ordered(w.history[base.value], w.history[w.current.value]);
    }
  }

  /** The run that fetches the current version and then sends the queued upload over it. */
  ghost predicate LosesContent(w: World, steps: seq<Step>, id: DeviceId) {
    && WellTagged(w) && HasCurrent(w) && id in w.devices && w.devices[id].cell.pending.Some?
    && Legal(w, steps, true)
    && var end := Exec(w, steps, true);
    && |end.log| == |w.log| + 1
    && end.log[|w.log|].replaced == Some(w.history[w.current.value])
    && end.log[|w.log|].upload.record.payload == w.devices[id].cell.pending.value.payload
    && !ReplacesWhatItSaw(end, end.log[|w.log|])
  }

  /** Both exceptions of `ReplacesWhatItSawUnless` are real: without a base, or over other content than the base's, some run loses it. */
  lemma UnseenContentIsReplaced(w: World, id: DeviceId)
    requires Inv(w) && MatchesCurrent(w, id)
    requires var base := w.devices[id].base;
             base.None? || (base.value < |w.history| && w.history[base.value].payload != w.history[w.current.value].payload)
    ensures exists steps :: LosesContent(w, steps, id)
  {
    var first := [Fetch(w, id)];
    FetchKeepsMatchingUpload(w, id);
    MatchingUploadReplacesCurrent(w, id);
    var after := Next(w, Fetch(w, id), true);
    VisitedRunIsLegal(first, [w, after], true);
    RunsJoin(w, first, Resend(after, id), true);
    ResendReplacesCurrent(after, id);
    assert LosesContent(w, first + Resend(after, id), id);
  }

  // ----- Runs that lead there -----

  predicate IsPayload(p: Payload) {
    0 < |p| <= MAX_PAYLOAD_BYTES
  }

  const IDLE := Device(EMPTY, None)
  const START := World(map[1 := IDLE, 2 := IDLE], {}, [], None, 0, [])

  function SaveStep(id: DeviceId, payload: Payload, base: Option<int>): Step {
    Local(id, Save(payload, base, false, Queued))
  }

  function Uploading(p: Pending): Device {
    Device(EMPTY.(pending := Some(p), queue := Queue(true, false)), None)
  }

  function FirstUpload(payload: Payload): Upload {
    Upload(Outgoing(true, None, 1, payload, None), None, None)
  }

  /** An idle device creates the record. */
  function Creation(id: DeviceId, payload: Payload): seq<Step> {
    [SaveStep(id, payload, None), Send(id), Accept(FirstUpload(payload))]
  }

  function Created(w: World, id: DeviceId, payload: Payload): World
    requires w.current.None?
  {
    AcceptUpload(w.(devices := w.devices[id := Uploading(Pending(1, payload, None, 0))], sent := w.sent + {FirstUpload(payload)}),
                 FirstUpload(payload))
  }

  lemma CreationLeadsTo(w: World, id: DeviceId, payload: Payload)
    requires w.current.None? && id in w.devices && w.devices[id] == IDLE && IsPayload(payload)
    ensures Legal(w, Creation(id, payload), true) && Exec(w, Creation(id, payload), true) == Created(w, id, payload)
  {
    var s := Creation(id, payload);
    var w1 := w.(devices := w.devices[id := Uploading(Pending(1, payload, None, 0))]);
    var w2 := w1.(sent := w.sent + {FirstUpload(payload)});
    assert Leads(w, s[0], w1, true);
    assert Leads(w1, s[1], w2, true);
    assert Leads(w2, s[2], Created(w, id, payload), true);
    VisitedRunIsLegal(s, [w, w1, w2, Created(w, id, payload)], true);
  }

  // A save that slips into a recovery: device 2 creates the record, device 1 saves while it recovers that.

  function Overtaken(mine: Payload, theirs: Payload): World {
    Created(START, 2, theirs).(devices := map[1 := Uploading(Pending(1, mine, None, 0)), 2 := Uploading(Pending(1, theirs, None, 0))])
  }

  function RecoveryRace(mine: Payload, theirs: Payload): seq<Step> {
    Creation(2, theirs) + [SaveStep(1, mine, None)]
  }

  lemma RecoveryRaceLeadsTo(mine: Payload, theirs: Payload)
    requires IsPayload(mine) && IsPayload(theirs)
    ensures Legal(START, RecoveryRace(mine, theirs), true) && Exec(START, RecoveryRace(mine, theirs), true) == Overtaken(mine, theirs)
  {
    CreationLeadsTo(START, 2, theirs);
    var w := Created(START, 2, theirs);
    var s := [SaveStep(1, mine, None)];
    assert Leads(w, s[0], Overtaken(mine, theirs), true);
    VisitedRunIsLegal(s, [w, Overtaken(mine, theirs)], true);
    RunsJoin(START, Creation(2, theirs), s, true);
  }

  /** For all payloads, this run from the start reaches a state whose recovery loses an update. */
  lemma RecoveryRaceLosesAnUpdate(mine: Payload, theirs: Payload)
    requires IsPayload(mine) && IsPayload(theirs)
    ensures Initial(START) && Legal(START, RecoveryRace(mine, theirs), true)
    ensures var w := Exec(START, RecoveryRace(mine, theirs), true);
            && HasCurrent(w) && Enabled(w, Recovery(w, 1), false)
            && HoldsCurrent(Next(w, Recovery(w, 1), false), 1)
            && var after := Next(w, Recovery(w, 1), false);
            && Legal(after, Resend(after, 1), true)
            && !AllFaithful(Exec(after, Resend(after, 1), true))
  {
    RecoveryRaceLeadsTo(mine, theirs);
    UnsafeRecoveryLosesAnUpdate(Overtaken(mine, theirs), 1);
  }

  // No base: device 1 stacks two saves of a record it never synced, and device 2 creates that record.

  function StackedFirstSaves(mine: Payload, newer: Payload, theirs: Payload): seq<Step> {
    [SaveStep(1, mine, None), SaveStep(1, newer, Some(1))] + Creation(2, theirs)
  }

  function Stacked(newer: Payload): World {
    START.(devices := START.devices[1 := Uploading(Pending(2, newer, Some(1), 0))])
  }

  lemma StackingLeadsTo(mine: Payload, newer: Payload)
    requires IsPayload(mine) && IsPayload(newer)
    ensures var s := [SaveStep(1, mine, None), SaveStep(1, newer, Some(1))];
            Legal(START, s, true) && Exec(START, s, true) == Stacked(newer)
  {
    var s := [SaveStep(1, mine, None), SaveStep(1, newer, Some(1))];
    var w1 := START.(devices := START.devices[1 := Uploading(Pending(1, mine, None, 0))]);
    assert Leads(START, s[0], w1, true);
    assert Leads(w1, s[1], Stacked(newer), true);
    VisitedRunIsLegal(s, [START, w1, Stacked(newer)], true);
  }

  /** For all payloads, this guarded run reaches a state from which the second save replaces a version nobody here saw. */
  lemma StackedFirstSavesAdoptAForeignRevision(mine: Payload, newer: Payload, theirs: Payload)
    requires IsPayload(mine) && IsPayload(newer) && IsPayload(theirs)
    ensures Initial(START) && Legal(START, StackedFirstSaves(mine, newer, theirs), true)
    ensures var w := Exec(START, StackedFirstSaves(mine, newer, theirs), true);
            && Inv(w) && MatchesCurrent(w, 1) && w.devices[1].base.None?
            && w.devices[1].cell.pending.value.payload == newer && w.history[w.current.value] == Version(1, theirs, None, 0)
            && exists steps :: LosesContent(w, steps, 1)
  {
    StackingLeadsTo(mine, newer);
    CreationLeadsTo(Stacked(newer), 2, theirs);
    RunsJoin(START, [SaveStep(1, mine, None), SaveStep(1, newer, Some(1))], Creation(2, theirs), true);
    RunKeepsInv(START, StackedFirstSaves(mine, newer, theirs));
    UnseenContentIsReplaced(Exec(START, StackedFirstSaves(mine, newer, theirs), true), 1);
  }

  // A removal in between: device 1 creates the record and saves again; the record is removed and device 2 creates it anew.

  function Synced(first: Payload, mine: Payload): World {
    var copy := Copy(1, first, None, 0);
    Created(START, 1, first).(devices :=
      START.devices[1 := Device(EMPTY.(remote := Some(copy), pending := Some(Pending(2, mine, Some(1), 0)), queue := Queue(true, false)), Some(0))])
  }

  function SyncAndRemoval(first: Payload, mine: Payload): seq<Step> {
    [Local(1, Saved(Some(Copy(1, first, None, 0)))), SaveStep(1, mine, Some(1)), Remove]
  }

  lemma SyncAndRemovalLeadsTo(first: Payload, mine: Payload)
    requires IsPayload(mine)
    ensures var w := Created(START, 1, first);
            && Legal(w, SyncAndRemoval(first, mine), true)
            && Exec(w, SyncAndRemoval(first, mine), true) == Synced(first, mine).(current := None, epoch := 1)
  {
    var s := SyncAndRemoval(first, mine);
    var w0 := Created(START, 1, first);
    var w1 := w0.(devices := START.devices[1 := Device(EMPTY.(remote := Some(Copy(1, first, None, 0)), queue := Queue(true, false)), None)]);
    var w2, w3 := Synced(first, mine), Synced(first, mine).(current := None, epoch := 1);
    assert Leads(w0, s[0], w1, true);
    assert Leads(w1, s[1], w2, true);
    assert Leads(w2, s[2], w3, true);
    VisitedRunIsLegal(s, [w0, w1, w2, w3], true);
  }

  function Recreation(first: Payload, mine: Payload, theirs: Payload): seq<Step> {
    Creation(1, first) + SyncAndRemoval(first, mine) + Creation(2, theirs)
  }

  lemma RecreationLeadsTo(first: Payload, mine: Payload, theirs: Payload)
    requires IsPayload(first) && IsPayload(mine) && IsPayload(theirs)
    ensures Legal(START, Recreation(first, mine, theirs), true)
    ensures Exec(START, Recreation(first, mine, theirs), true) == Created(Synced(first, mine).(current := None, epoch := 1), 2, theirs)
  {
    CreationLeadsTo(START, 1, first);
    SyncAndRemovalLeadsTo(first, mine);
    RunsJoin(START, Creation(1, first), SyncAndRemoval(first, mine), true);
    CreationLeadsTo(Synced(first, mine).(current := None, epoch := 1), 2, theirs);
    RunsJoin(START, Creation(1, first) + SyncAndRemoval(first, mine), Creation(2, theirs), true);
  }

  /** For all payloads, this guarded run reaches a state from which the later save replaces what device 2 created, unseen. */
  lemma RecreationAdoptsAForeignRevision(first: Payload, mine: Payload, theirs: Payload)
    requires IsPayload(first) && IsPayload(mine) && IsPayload(theirs)
    ensures Initial(START) && Legal(START, Recreation(first, mine, theirs), true)
    ensures var w := Exec(START, Recreation(first, mine, theirs), true);
            && Inv(w) && MatchesCurrent(w, 1) && w.devices[1].base == Some(0)
            && w.history == [Version(1, first, None, 0), Version(1, theirs, None, 1)] && w.current == Some(1)
            && w.devices[1].cell.pending.value.payload == mine
            && (first != theirs ==> exists steps :: LosesContent(w, steps, 1))
  {
    RecreationLeadsTo(first, mine, theirs);
    RunKeepsInv(START, Recreation(first, mine, theirs));
    if first != theirs {
      UnseenContentIsReplaced(Exec(START, Recreation(first, mine, theirs), true), 1);
    }
  }

  // A late acknowledgement: device 1 creates the record, deletes it and saves anew before its first save is acknowledged.

  function DeleteAndSave(second: Payload): seq<Step> {
    [Local(1, Delete(true)), SaveStep(1, second, None)]
  }

  function SavedAnew(first: Payload, second: Payload): World {
    Created(START, 1, first).(devices := map[1 := Device(EMPTY.(pending := Some(Pending(1, second, None, 0)), queue := Queue(true, true)), None), 2 := IDLE])
  }

  lemma DeleteAndSaveLeadsTo(first: Payload, second: Payload)
    requires IsPayload(second)
    ensures var w := Created(START, 1, first);
            Legal(w, DeleteAndSave(second), true) && Exec(w, DeleteAndSave(second), true) == SavedAnew(first, second)
  {
    var s := DeleteAndSave(second);
    var w := Created(START, 1, first);
    var w1 := w.(devices := map[1 := Device(EMPTY.(pendingDelete := true, queue := Queue(false, true)), None), 2 := IDLE]);
    assert Leads(w, s[0], w1, true);
    assert Leads(w1, s[1], SavedAnew(first, second), true);
    VisitedRunIsLegal(s, [w, w1, SavedAnew(first, second)], true);
  }

  /**
   For all payloads, after this guarded run the acknowledgement of the first save drops the second:
   nothing is queued, latched or rejected, and the first content is cached.
   */
  lemma LateAcknowledgementDropsASave(first: Payload, second: Payload)
    requires IsPayload(first) && IsPayload(second)
    ensures var steps := Creation(1, first) + DeleteAndSave(second);
            var acknowledged := Local(1, Saved(Some(Copy(1, first, None, 0))));
            && Initial(START) && Legal(START, steps, true)
            && var w := Exec(START, steps, true);
            && 1 in w.devices && w.devices[1].cell.pending == Some(Pending(1, second, None, 0))
            && Enabled(w, acknowledged, true)
            && var after := Next(w, acknowledged, true).devices[1].cell;
            && after.pending.None? && after.conflict.None? && after.rejected == EMPTY.rejected
            && after.remote == Some(Copy(1, first, None, 0))
  {
    CreationLeadsTo(START, 1, first);
    DeleteAndSaveLeadsTo(first, second);
    RunsJoin(START, Creation(1, first), DeleteAndSave(second), true);
  }
}
