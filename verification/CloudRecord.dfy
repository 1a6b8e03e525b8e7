/**
 The iCloud workbook store, seen from one record: what each user request and each
 sync-engine event does to the cached copy, the queued upload, the queued delete, the
 latched conflict and the queued conflict notice of that record.

 A payload stands for its own hash, and a record name for the workbook it is derived from
 (hashes are taken to be injective). A copy of a server record carries the change tag it was
 read with; `None` stands for a record that could not be decoded.
 */
module CloudRecord {
  import opened Options

  newtype Byte = b: int | 0 <= b < 256
  type Payload = seq<Byte>
  type Tag = nat

  const MAX_PAYLOAD_BYTES: nat := 25 * 1024 * 1024

  datatype Notice = Notice(id: string, report: string)

  /** A decoded server record. */
  datatype Copy = Copy(revision: nat, payload: Payload, notice: Option<Notice>, tag: Tag)

  /** A queued upload: the workbook, and the revision it was queued against. */
  datatype Pending = Pending(revision: nat, payload: Payload, expected: Option<nat>, retries: nat)

  /** A queued conflict notice; `wanted == None` asks for the notice to be cleared. */
  datatype NoticeUpdate = NoticeUpdate(wanted: Option<Notice>, retries: nat)

  datatype Conflict = Conflict(remoteRevision: Option<nat>, remoteDeleted: bool)

  /** What was given up for good since it was last reported to the caller. */
  datatype Rejections = Rejections(save: bool, notice: bool, delete: bool)

  /** The changes the sync engine has been asked to send. */
  datatype Queue = Queue(save: bool, delete: bool)

  datatype Cell = Cell(
    remote: Option<Copy>,
    pending: Option<Pending>,
    pendingDelete: bool,
    conflict: Option<Conflict>,
    notice: Option<NoticeUpdate>,
    rejected: Rejections,
    queue: Queue)

  const EMPTY := Cell(None, None, false, None, None, Rejections(false, false, false), Queue(false, false))

  /** How far a save got: the payload file, then the manifest, then the engine queue. */
  datatype SaveIo = PayloadWriteFails | PersistFails | Queued

  datatype SaveError =
    | ServerRecordChanged(server: Option<Copy>)
    | SaveZoneNotFound
    | SaveUnknownItem
    | SaveTransient
    | SaveTerminal

  datatype DeleteError = DeleteUnknownItem | DeleteZoneNotFound | DeleteTransient | DeleteTerminal

  datatype Event =
    | Save(payload: Payload, base: Option<int>, keepLocal: bool, io: SaveIo)
    | SaveReported
    | PublishNotice(notice: Notice, persisted: bool)
    | ClearNotice(persisted: bool)
    | NoticeReported
    | Delete(persisted: bool)
    | DeleteReported
    | Download(readable: bool)
    | Recovered(found: Copy)
    | Fetched(copy: Option<Copy>)
    | FetchedDeletion
    | Saved(copy: Option<Copy>)
    | SavedDeletion
    | SaveFailed(saveError: SaveError)
    | DeleteFailed(deleteError: DeleteError)
    | ZoneDeleted
    | AccountChanged(preservePending: bool)
    | Reseeded
    | EngineDequeued

  // ----- Helpers the handlers share -----

  function RevisionOf(copy: Option<Copy>): Option<nat> {
    if copy.Some? then Some(copy.value.revision) else None
  }

  /** Drops the queued notice once the server record shows what it asked for. */
  function AcknowledgeNotice(c: Cell, copy: Copy): Cell {
    if c.notice.Some? && copy.notice == c.notice.value.wanted then c.(notice := None) else c
  }

  /** Gives up the queued upload and remembers why; a queued notice stays queued. */
  function LatchConflict(c: Cell, remoteRevision: Option<nat>, remoteDeleted: bool): Cell {
    c.(conflict := Some(Conflict(remoteRevision, remoteDeleted)),
       pending := None,
       queue := c.queue.(save := c.notice.Some?))
  }

  // ----- User requests -----

  datatype SaveOutcome = QuotaExceeded | InvalidRevision | RevisionConflict | Unwritten | Stored(revision: nat)

  /** A latched record accepts only a reviewed save that names the cached state. */
  predicate MatchesReviewedState(c: Cell, base: Option<int>)
    requires c.conflict.Some?
  {
    if c.conflict.value.remoteDeleted then c.remote.None? && base.None?
    else base.Some? && c.remote.Some? && base.value == c.remote.value.revision
  }

  /** The optimistic check: the save must name what is queued, else what is cached, else nothing. */
  predicate NamesCurrentRevision(c: Cell, base: Option<int>) {
    if c.pending.Some? then base == Some(c.pending.value.revision as int)
    else if c.remote.Some? then base == Some(c.remote.value.revision as int)
    else base.None?
  }

  function SaveWorkbook(c: Cell, payload: Payload, base: Option<int>, keepLocal: bool, io: SaveIo)
    : (Cell, SaveOutcome)
  {
    if payload == [] || |payload| > MAX_PAYLOAD_BYTES then (c, QuotaExceeded)
    else if base.Some? && base.value < 1 then (c, InvalidRevision)
    else if c.conflict.Some? && !(keepLocal && MatchesReviewedState(c, base)) then (c, RevisionConflict)
    else
      var open := c.(conflict := None);
      if !NamesCurrentRevision(open, base) then (open, RevisionConflict)
      else if io.PayloadWriteFails? then (open, Unwritten)
      else
        var named: Option<nat> := if base.Some? then Some(base.value) else None;
        var revision := (if named.Some? then named.value else 0) + 1;
        var chained := open.pending.Some? && open.pending.value.expected.Some?;
        var expected := if chained then open.pending.value.expected else named;
        var retries := if open.pending.Some? then open.pending.value.retries else 0;
        (open.(pending := Some(Pending(revision, payload, expected, retries)),
               pendingDelete := false,
               rejected := open.rejected.(save := false),
               queue := open.queue.(save := open.queue.save || io.Queued?)),
         Stored(revision))
  }

  /** Queues a notice for a record that is cached; clearing also releases the latch. */
  function UpdateNotice(c: Cell, wanted: Option<Notice>, persisted: bool): Cell {
    if c.remote.None? then c
    else c.(notice := Some(NoticeUpdate(wanted, 0)),
            conflict := if wanted.None? then None else c.conflict,
            rejected := c.rejected.(notice := false),
            queue := c.queue.(save := c.queue.save || persisted))
  }

  function DeleteWorkbook(c: Cell, persisted: bool): Cell {
    c.(pending := None,
       notice := None,
       pendingDelete := true,
       conflict := None,
       rejected := c.rejected.(delete := false),
       queue := Queue(false, c.queue.delete || persisted))
  }

  function DownloadWorkbook(c: Cell, readable: bool): Cell {
    if c.pending.None? && c.remote.Some? && readable then c.(conflict := None) else c
  }

  // ----- What is handed to the engine -----

  /** An outgoing record. Without a workbook it repeats the cached one under a queued notice. */
  datatype Outgoing = Outgoing(
    workbook: bool,
    tag: Option<Tag>,
    revision: nat,
    payload: Payload,
    notice: Option<Notice>)

  function RecordToSave(c: Cell): (r: Option<Outgoing>) {
    if c.pending.None? && (c.notice.None? || c.remote.None?) then None
    else
      var tag := if c.remote.Some? then Some(c.remote.value.tag) else None;
      var notice := if c.notice.Some? then c.notice.value.wanted
                    else if c.remote.Some? then c.remote.value.notice
                    else None;
      if c.pending.Some? then Some(Outgoing(true, tag, c.pending.value.revision, c.pending.value.payload, notice))
      else Some(Outgoing(false, tag, c.remote.value.revision, c.remote.value.payload, notice))
  }

  // ----- Sync-engine events -----

  function ApplyFetchedRecord(c: Cell, copy: Copy): Cell {
    var a := AcknowledgeNotice(c, copy);
    if a.pending.None? then a.(remote := Some(copy))
    else
      var p := a.pending.value;
      if p.revision == copy.revision && p.payload == copy.payload then
        a.(remote := Some(copy), pending := None, conflict := None, queue := a.queue.(save := a.notice.Some?))
      else if p.expected != Some(copy.revision) then
        LatchConflict(a, Some(copy.revision), false).(remote := Some(copy))
      else
        a.(remote := Some(copy))
  }

  function ApplyFetchedDeletion(c: Cell): Cell {
    var l := if c.pending.Some? then LatchConflict(c, None, true) else c;
    l.(remote := None, notice := None)
  }

  function ApplySavedRecord(c: Cell, copy: Copy): Cell {
    if c.pending.Some? && copy.revision != c.pending.value.revision then c
    else if c.pending.None? && c.notice.None? then c
    else
      var held := c.(remote := Some(copy));
      var released := if c.pending.Some? then held.(pending := None, conflict := None) else held;
      var a := AcknowledgeNotice(released, copy);
      if a.notice.Some? then a.(queue := a.queue.(save := true)) else a
  }

  function ApplySavedDeletion(c: Cell): Cell {
    c.(remote := None, pending := None, notice := None, pendingDelete := false,
       conflict := None, rejected := c.rejected.(delete := false))
  }

  /** After a refused change tag: retry an upload whose revision check still matches, once. */
  function RetryUpload(c: Cell): (r: (Cell, bool)) {
    if c.pending.None? then (c, false)
    else
      var p := c.pending.value;
      if p.expected == RevisionOf(c.remote) && p.retries < 1 then
        (c.(pending := Some(p.(retries := p.retries + 1))), true)
      else
        (LatchConflict(c, RevisionOf(c.remote), false), false)
  }

  /** After a refused change tag: retry a queued notice once, then reject it. */
  function RetryNotice(c: Cell): (r: (Cell, bool)) {
    if c.notice.None? then (c, false)
    else if c.notice.value.retries < 1 then
      (c.(notice := Some(c.notice.value.(retries := c.notice.value.retries + 1))), true)
    else
      (c.(notice := None, rejected := c.rejected.(notice := true)), false)
  }

  function HandleServerRecordChanged(c: Cell, server: Option<Copy>): Cell {
    var fetched := if server.Some? then ApplyFetchedRecord(c, server.value) else c;
    var (upload, retryUpload) := RetryUpload(fetched);
    var (both, retryNotice) := RetryNotice(upload);
    Enqueue(both, retryUpload || retryNotice)
  }

  /** Sets whether the engine is to send the record. */
  function Enqueue(c: Cell, save: bool): Cell {
    c.(queue := c.queue.(save := save))
  }

  function HandleFailedSave(c: Cell, error: SaveError): Cell {
    match error
    case ServerRecordChanged(server) => HandleServerRecordChanged(c, server)
    case SaveZoneNotFound => Enqueue(c, true)
    case SaveUnknownItem =>
      if c.notice.Some? then Enqueue(c.(notice := None, rejected := c.rejected.(notice := true)), false)
      else if c.pending.None? || c.pending.value.expected.None? then Enqueue(c, true)
      else Enqueue(LatchConflict(c, None, true), false)
    case SaveTransient => c
    case SaveTerminal =>
      Enqueue(c.(pending := None,
                 notice := None,
                 rejected := c.rejected.(save := c.rejected.save || c.pending.Some?,
                                         notice := c.rejected.notice || c.notice.Some?)),
              false)
  }

  function HandleFailedDelete(c: Cell, error: DeleteError): Cell {
    match error
    case DeleteUnknownItem => ApplySavedDeletion(c)
    case DeleteZoneNotFound => ApplySavedDeletion(c)
    case DeleteTransient => c
    case DeleteTerminal => c.(pendingDelete := false, rejected := c.rejected.(delete := true))
  }

  function ClearRemoteCache(c: Cell): Cell {
    c.(remote := None, conflict := None)
  }

  /** Only work queued before the first sign-in is carried into an account. */
  function ResetForAccountChange(c: Cell, preservePending: bool): Cell {
    EMPTY.(pending := if preservePending then c.pending else None,
           pendingDelete := preservePending && c.pendingDelete,
           queue := Queue(preservePending && c.pending.Some?, preservePending && c.pendingDelete))
  }

  function Reseed(c: Cell): Cell {
    c.(queue := Queue(c.queue.save || c.pending.Some? || c.notice.Some?, c.queue.delete || c.pendingDelete))
  }

  /** One step of one record. */
  function Apply(c: Cell, e: Event): Cell {
    match e
    case Save(payload, base, keepLocal, io) => SaveWorkbook(c, payload, base, keepLocal, io).0
    case SaveReported => c.(rejected := c.rejected.(save := false))
    case PublishNotice(notice, persisted) => UpdateNotice(c, Some(notice), persisted)
    case ClearNotice(persisted) => UpdateNotice(c, None, persisted)
    case NoticeReported => c.(rejected := c.rejected.(notice := false))
    case Delete(persisted) => DeleteWorkbook(c, persisted)
    case DeleteReported => c.(rejected := c.rejected.(delete := false))
    case Download(readable) => DownloadWorkbook(c, readable)
    case Recovered(found) => c.(remote := Some(found))
    case Fetched(copy) => if copy.Some? then ApplyFetchedRecord(c, copy.value) else c
    case FetchedDeletion => ApplyFetchedDeletion(c)
    case Saved(copy) => if copy.Some? then ApplySavedRecord(c, copy.value) else c
    case SavedDeletion => ApplySavedDeletion(c)
    case SaveFailed(error) => HandleFailedSave(c, error)
    case DeleteFailed(error) => HandleFailedDelete(c, error)
    case ZoneDeleted => ClearRemoteCache(c)
    case AccountChanged(preservePending) => ResetForAccountChange(c, preservePending)
    case Reseeded => Reseed(c)
    case EngineDequeued => c.(queue := Queue(false, false))
  }

  // ----- The inductive invariant -----

  ghost predicate Coherent(c: Cell) {
    && (c.pending.Some? ==>
          && c.conflict.None?
          && !c.pendingDelete
          && !c.rejected.save
          && c.pending.value.retries <= 1
          && c.pending.value.revision >= (if c.pending.value.expected.Some? then c.pending.value.expected.value else 0) + 1
          && (c.remote.Some? ==> c.pending.value.expected == Some(c.remote.value.revision)))
    && (c.notice.Some? ==> c.notice.value.retries <= 1)
  }

  /** The asynchronous recovery of a missing copy must not overtake a save for another revision. */
  ghost predicate RecoveryIsSafe(c: Cell, e: Event) {
    e.Recovered? ==> c.pending.None? || c.pending.value.expected == Some(e.found.revision)
  }

  lemma SaveKeepsCoherent(c: Cell, payload: Payload, base: Option<int>, keepLocal: bool, io: SaveIo)
    requires Coherent(c)
    ensures Coherent(SaveWorkbook(c, payload, base, keepLocal, io).0)
  {
  }

  lemma FetchKeepsCoherent(c: Cell, copy: Copy)
    requires Coherent(c)
    ensures Coherent(ApplyFetchedRecord(c, copy))
    ensures RetriesLeft(ApplyFetchedRecord(c, copy)) <= RetriesLeft(c)
  {
  }

  lemma RetryKeepsCoherent(c: Cell)
    requires Coherent(c)
    ensures Coherent(RetryUpload(c).0) && Coherent(RetryNotice(c).0)
  {
  }

  lemma RefusalKeepsCoherent(c: Cell, server: Option<Copy>)
    requires Coherent(c)
    ensures Coherent(HandleServerRecordChanged(c, server))
  {
    var fetched := if server.Some? then ApplyFetchedRecord(c, server.value) else c;
    if server.Some? {
      FetchKeepsCoherent(c, server.value);
    }
    RetryKeepsCoherent(fetched);
    RetryKeepsCoherent(RetryUpload(fetched).0);
  }

  lemma FailedSaveKeepsCoherent(c: Cell, error: SaveError)
    requires Coherent(c)
    ensures Coherent(HandleFailedSave(c, error))
  {
    match error
    case ServerRecordChanged(server) => RefusalKeepsCoherent(c, server);
    case _ =>
  }

  /** Every handler keeps the invariant; recovery is the only one that needs a guard. */
  lemma StepKeepsCoherent(c: Cell, e: Event)
    requires Coherent(c)
    ensures Coherent(Apply(c, e)) <==> RecoveryIsSafe(c, e)
  {
    match e
    case Save(payload, base, keepLocal, io) => SaveKeepsCoherent(c, payload, base, keepLocal, io);
    case Fetched(copy) => if copy.Some? { FetchKeepsCoherent(c, copy.value); }
    case SaveFailed(error) => FailedSaveKeepsCoherent(c, error);
    case _ =>
  }

  function Run(c: Cell, events: seq<Event>): Cell
    decreases |events|
  {
    if events == [] then c else Run(Apply(c, events[0]), events[1..])
  }

  ghost predicate RecoveriesAreSafe(c: Cell, events: seq<Event>)
    decreases |events|
  {
    events == [] || (RecoveryIsSafe(c, events[0]) && RecoveriesAreSafe(Apply(c, events[0]), events[1..]))
  }

  lemma {:induction false} RunKeepsCoherent(c: Cell, events: seq<Event>)
    requires Coherent(c) && RecoveriesAreSafe(c, events)
    ensures Coherent(Run(c, events))
    decreases |events|
  {
    if events != [] {
      StepKeepsCoherent(c, events[0]);
      RunKeepsCoherent(Apply(c, events[0]), events[1..]);
    }
  }

  // ----- Nothing queued vanishes silently -----

  /** What holds of every cell in every run, even past a recovery that overtook a save. */
  ghost predicate Tidy(c: Cell) {
    && (c.pending.Some? ==> c.conflict.None? && !c.pendingDelete && !c.rejected.save && c.pending.value.retries <= 1)
    && (c.notice.Some? ==> c.notice.value.retries <= 1)
  }

  lemma FailedSaveKeepsTidy(c: Cell, error: SaveError)
    requires Tidy(c)
    ensures Tidy(HandleFailedSave(c, error))
  {
  }

  lemma StepKeepsTidy(c: Cell, e: Event)
    requires Tidy(c)
    ensures Tidy(Apply(c, e))
  {
    match e
    case SaveFailed(error) => FailedSaveKeepsTidy(c, error);
    case _ =>
  }

  lemma {:induction false} RunKeepsTidy(c: Cell, events: seq<Event>)
    requires Tidy(c)
    ensures Tidy(Run(c, events))
    decreases |events|
  {
    if events != [] {
      StepKeepsTidy(c, events[0]);
      RunKeepsTidy(Apply(c, events[0]), events[1..]);
    }
  }

  /** The upload was given up for a reason that shows: a latch, a rejection, a delete or a change of account. */
  ghost predicate GivenUp(e: Event, after: Cell) {
    || after.conflict.Some?
    || after.rejected.save
    || e.Delete?
    || e.SavedDeletion?
    || (e.DeleteFailed? && (e.deleteError.DeleteUnknownItem? || e.deleteError.DeleteZoneNotFound?))
    || e == AccountChanged(false)
  }

  /** The account of a queued upload that is no longer queued. */
  ghost predicate UploadAccountedFor(p: Pending, e: Event, after: Cell) {
    RevisionOf(after.remote) == Some(p.revision) || GivenUp(e, after)
  }

  lemma FetchAccountsForUpload(c: Cell, copy: Copy)
    requires c.pending.Some?
    ensures var after := ApplyFetchedRecord(c, copy);
            if after.pending.Some? then after.pending == c.pending
            else RevisionOf(after.remote) == Some(c.pending.value.revision) || after.conflict.Some?
  {
  }

  /** In any cell whatever, a queued upload that a step removes is accounted for. */
  lemma NoSilentLoss(c: Cell, e: Event)
    requires c.pending.Some? && Apply(c, e).pending.None?
    ensures UploadAccountedFor(c.pending.value, e, Apply(c, e))
  {
    match e
    case Fetched(copy) => if copy.Some? { FetchAccountsForUpload(c, copy.value); }
    case SaveFailed(ServerRecordChanged(server)) =>
      if server.Some? {
        FetchAccountsForUpload(c, server.value);
      }
    case _ =>
  }

  /** A server copy of the upload's revision with other content. */
  predicate IsOthersContent(p: Pending, e: Event) {
    e.Saved? && e.copy.Some? && e.copy.value.revision == p.revision && e.copy.value.payload != p.payload
  }

  /**
   An upload that a step removes without giving it up is cached with its revision and, except where
   an acknowledgement brought other content under that revision, with its content.
   */
  lemma DroppedUploadIsCachedUnless(c: Cell, e: Event)
    requires c.pending.Some? && Apply(c, e).pending.None? && !GivenUp(e, Apply(c, e))
    ensures var p, after := c.pending.value, Apply(c, e);
            && RevisionOf(after.remote) == Some(p.revision)
            && (after.remote.value.payload == p.payload <==> !IsOthersContent(p, e))
  {
    match e
    case Fetched(copy) => if copy.Some? { FetchCachesUpload(c, copy.value); }
    case SaveFailed(ServerRecordChanged(server)) =>
      if server.Some? {
        FetchCachesUpload(c, server.value);
      }
    case _ =>
  }

  lemma FetchCachesUpload(c: Cell, copy: Copy)
    requires c.pending.Some?
    ensures var after := ApplyFetchedRecord(c, copy);
            if after.pending.Some? then after.pending == c.pending
            else after.conflict.Some? || (after.remote == Some(copy) && copy.revision == c.pending.value.revision && copy.payload == c.pending.value.payload)
  {
  }

  /** Over every run, at every step; a latch or a recorded rejection is then one that this very step left. */
  lemma NoSilentLossOverRuns(events: seq<Event>, i: nat)
    requires i < |events| && Run(EMPTY, events[..i]).pending.Some?
    requires Apply(Run(EMPTY, events[..i]), events[i]).pending.None?
    ensures var before := Run(EMPTY, events[..i]);
            && UploadAccountedFor(before.pending.value, events[i], Apply(before, events[i]))
            && before.conflict.None? && !before.rejected.save
  {
    RunKeepsTidy(EMPTY, events[..i]);
    NoSilentLoss(Run(EMPTY, events[..i]), events[i]);
  }

  lemma EventsKeepTheUpload(c: Cell, e: Event)
    requires c.pending.Some? && Apply(c, e).pending.Some? && !e.Save?
    ensures Apply(c, e).pending.value.payload == c.pending.value.payload
  {
    match e
    case Fetched(copy) => if copy.Some? { FetchAccountsForUpload(c, copy.value); }
    case SaveFailed(ServerRecordChanged(server)) =>
      if server.Some? {
        FetchAccountsForUpload(c, server.value);
      }
    case _ =>
  }

  /** What replaces a queued upload is a later save of the same record, never an event. */
  lemma OnlyASaveReplacesAnUpload(c: Cell, e: Event)
    requires c.pending.Some? && Apply(c, e).pending.Some?
    requires Apply(c, e).pending.value.payload != c.pending.value.payload
    ensures e.Save? && Apply(c, e).pending.value.payload == e.payload
    ensures e.base == Some(c.pending.value.revision as int)
    ensures Apply(c, e).pending.value.revision == c.pending.value.revision + 1
  {
    if !e.Save? {
      EventsKeepTheUpload(c, e);
    }
  }

  // ----- Sent and acknowledged -----

  /** A stored save is queued and goes out as it was given, one revision above the one it named, under the cached tag. */
  lemma StoredSaveIsSent(c: Cell, payload: Payload, base: Option<int>, keepLocal: bool)
    requires SaveWorkbook(c, payload, base, keepLocal, Queued).1.Stored?
    ensures var (after, outcome) := SaveWorkbook(c, payload, base, keepLocal, Queued);
            var record := RecordToSave(after);
            && after.queue.save && record.Some? && record.value.workbook && record.value.payload == payload
            && record.value.revision == outcome.revision == (if base.Some? then base.value else 0) + 1
            && record.value.tag == if c.remote.Some? then Some(c.remote.value.tag) else None
  {
  }

  /** A persisted notice update is queued and goes out over whatever workbook the record then carries. */
  lemma NoticeIsSent(c: Cell, wanted: Option<Notice>)
    requires c.remote.Some?
    ensures var after := UpdateNotice(c, wanted, true);
            var record := RecordToSave(after);
            && after.queue.save && record.Some? && record.value.notice == wanted
            && record.value.tag == Some(c.remote.value.tag)
            && record.value.workbook == c.pending.Some?
            && (c.pending.None? ==> record.value.revision == c.remote.value.revision && record.value.payload == c.remote.value.payload)
  {
  }

  /** The server's copy of an outgoing record. */
  function AcceptedCopy(record: Outgoing, tag: Tag): Copy {
    Copy(record.revision, record.payload, record.notice, tag)
  }

  /**
   Whether it comes back as an acknowledgement or as a fetched record, the server's copy of what
   was sent becomes the cached copy and leaves nothing queued and nothing latched.
   */
  lemma AcceptedRecordSettles(c: Cell, tag: Tag)
    requires Tidy(c) && RecordToSave(c).Some?
    ensures var copy := AcceptedCopy(RecordToSave(c).value, tag);
            var saved, fetched := ApplySavedRecord(c, copy), ApplyFetchedRecord(c, copy);
            && saved.remote == fetched.remote == Some(copy)
            && saved.pending.None? && fetched.pending.None?
            && saved.notice.None? && fetched.notice.None?
            && (c.pending.Some? ==> saved.conflict.None? && fetched.conflict.None?)
  {
  }

  /** A delete is queued, sends no workbook any more, and its acknowledgement leaves nothing of the record. */
  lemma DeleteSettles(c: Cell)
    ensures var deleted := DeleteWorkbook(c, true);
            && deleted.pendingDelete && deleted.queue == Queue(false, true) && RecordToSave(deleted).None?
            && ApplySavedDeletion(deleted) == EMPTY.(rejected := deleted.rejected, queue := deleted.queue)
  {
  }

  // ----- The conflict latch -----

  /** A save past the quota and revision checks that names the reviewed state. */
  predicate IsReviewedSave(c: Cell, e: Event)
    requires c.conflict.Some?
  {
    && e.Save? && e.keepLocal && MatchesReviewedState(c, e.base)
    && e.payload != [] && |e.payload| <= MAX_PAYLOAD_BYTES && (e.base.Some? ==> e.base.value >= 1)
  }

  /** The steps that release a latched record, and no others. */
  predicate Opens(c: Cell, e: Event)
    requires c.conflict.Some?
  {
    match e
    case Save(_, _, _, _) => IsReviewedSave(c, e)
    case ClearNotice(_) => c.remote.Some?
    case Download(readable) => c.remote.Some? && readable
    case Delete(_) => true
    case SavedDeletion => true
    case DeleteFailed(error) => error.DeleteUnknownItem? || error.DeleteZoneNotFound?
    case ZoneDeleted => true
    case AccountChanged(_) => true
    case _ => false
  }

  /** A latched record is released by exactly these steps, and gets a payload back only from the reviewed save itself. */
  lemma LatchHolds(c: Cell, e: Event)
    requires c.conflict.Some? && c.pending.None?
    ensures Apply(c, e).conflict.None? <==> Opens(c, e)
    ensures Apply(c, e).pending.Some? ==> IsReviewedSave(c, e) && Apply(c, e).pending.value.payload == e.payload
  {
  }

  /** Whether some step of the run opens the latch while it is held. */
  predicate SomeStepOpens(c: Cell, events: seq<Event>)
    decreases |events|
  {
    events != [] && ((c.conflict.Some? && Opens(c, events[0])) || SomeStepOpens(Apply(c, events[0]), events[1..]))
  }

  /** Over any run, recoveries included, a latched record stays latched and empty until a step opens it. */
  lemma {:induction false} LatchHoldsOverRuns(c: Cell, events: seq<Event>)
    requires c.conflict.Some? && c.pending.None? && !SomeStepOpens(c, events)
    ensures Run(c, events).conflict.Some? && Run(c, events).pending.None?
    decreases |events|
  {
    if events != [] {
      LatchHolds(c, events[0]);
      LatchHoldsOverRuns(Apply(c, events[0]), events[1..]);
    }
  }

  // ----- Bounded retries -----

  function RetriesLeft(c: Cell): nat {
    (if c.pending.Some? && c.pending.value.retries <= 2 then 2 - c.pending.value.retries else 0)
    + (if c.notice.Some? && c.notice.value.retries <= 2 then 2 - c.notice.value.retries else 0)
  }

  /** Each refusal uses up a retry, and the record is queued again exactly when something is left. */
  lemma RefusalUsesARetry(c: Cell, server: Option<Copy>)
    requires Tidy(c) && (c.pending.Some? || c.notice.Some?)
    ensures var after := HandleServerRecordChanged(c, server);
            && RetriesLeft(after) < RetriesLeft(c)
            && (after.queue.save <==> after.pending.Some? || after.notice.Some?)
  {
  }

  /** A save stacked on a queued upload inherits its retry count. */
  lemma StackedSaveKeepsRetries(c: Cell, e: Event)
    requires Tidy(c) && c.pending.Some? && e.Save?
    ensures Apply(c, e).pending.Some? && Apply(c, e).pending.value.retries == c.pending.value.retries
    ensures c.pending.value.expected.Some? ==> Apply(c, e).pending.value.expected == c.pending.value.expected
  {
  }

  function Refusals(servers: seq<Option<Copy>>): seq<Event> {
    seq(|servers|, i requires 0 <= i < |servers| => SaveFailed(ServerRecordChanged(servers[i])))
  }

  /** Four refusals in a row leave nothing queued, whatever the server sends back each time. */
  lemma {:induction false} RefusalsTerminate(c: Cell, servers: seq<Option<Copy>>)
    requires Tidy(c) && RetriesLeft(c) <= |servers|
    ensures Run(c, Refusals(servers)).pending.None? && Run(c, Refusals(servers)).notice.None?
    decreases |servers|
  {
    var events := Refusals(servers);
    if servers != [] {
      assert events[1..] == Refusals(servers[1..]);
      var after := Apply(c, events[0]);
      StepKeepsTidy(c, events[0]);
      if c.pending.Some? || c.notice.Some? {
        RefusalUsesARetry(c, servers[0]);
      }
      RefusalsTerminate(after, servers[1..]);
    }
  }
}
