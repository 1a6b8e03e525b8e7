/**
 The store itself: the per-record maps that user requests and sync-engine events update in
 place. Each handler is proved to do to its own record exactly what `CloudRecord` says, and
 nothing to any other record.
 */
module CloudStore {
  import opened Options
  import opened CloudRecord

  type RecordName = string

  class Store {
    var remote: map<RecordName, Copy>
    var pending: map<RecordName, Pending>
    var pendingDeletes: set<RecordName>
    var conflicts: map<RecordName, Conflict>
    var pendingConflictNotices: map<RecordName, NoticeUpdate>
    var rejectedSaves: set<RecordName>
    var rejectedConflictNotices: set<RecordName>
    var rejectedDeletes: set<RecordName>
    var queuedSaves: set<RecordName>
    var queuedDeletes: set<RecordName>

    constructor ()
      ensures forall q :: CellOf(q) == EMPTY
    {
      remote, pending, pendingDeletes, conflicts := map[], map[], {}, map[];
      pendingConflictNotices := map[];
      rejectedSaves, rejectedConflictNotices, rejectedDeletes := {}, {}, {};
      queuedSaves, queuedDeletes := {}, {};
    }

    /** One record's share of the maps. */
    ghost function CellOf(r: RecordName): Cell
      reads this
    {
      Cell(Get(remote, r), Get(pending, r), r in pendingDeletes, Get(conflicts, r), Get(pendingConflictNotices, r),
           Rejections(r in rejectedSaves, r in rejectedConflictNotices, r in rejectedDeletes),
           Queue(r in queuedSaves, r in queuedDeletes))
    }

    // ----- Helpers -----

    method LatchConflict(r: RecordName, remoteRevision: Option<nat>, remoteDeleted: bool)
      modifies this
      ensures CellOf(r) == CloudRecord.LatchConflict(old(CellOf(r)), remoteRevision, remoteDeleted)
      ensures forall q :: q != r ==> CellOf(q) == old(CellOf(q))
    {
      conflicts := conflicts[r := Conflict(remoteRevision, remoteDeleted)];
      pending := pending - {r};
      queuedSaves := queuedSaves - {r};
      if r in pendingConflictNotices {
        queuedSaves := queuedSaves + {r};
      }
    }

    method AcknowledgeConflictNoticeIfMatched(r: RecordName, copy: Copy)
      modifies this
      ensures CellOf(r) == AcknowledgeNotice(old(CellOf(r)), copy)
      ensures forall q :: q != r ==> CellOf(q) == old(CellOf(q))
    {
      if r in pendingConflictNotices && copy.notice == pendingConflictNotices[r].wanted {
        pendingConflictNotices := pendingConflictNotices - {r};
      }
    }

    // ----- User requests -----

    /** Releases a latched record to a reviewed save that names the cached state; false refuses the save. */
    method ReviewConflict(r: RecordName, base: Option<int>, keepLocal: bool) returns (open: bool)
      modifies this`conflicts
      ensures var c := old(CellOf(r));
              && open == (c.conflict.None? || (keepLocal && MatchesReviewedState(c, base)))
              && conflicts == if open then old(conflicts) - {r} else old(conflicts)
    {
      if r in conflicts {
        var matchesReviewedState :=
          if conflicts[r].remoteDeleted then r !in remote && base.None?
          else base.Some? && r in remote && base.value == remote[r].revision;
        if !(keepLocal && matchesReviewedState) {
          return false;
        }
      }
      conflicts := conflicts - {r};
      return true;
    }

    /** Queues the written payload on top of whatever is queued already. */
    method QueueUpload(r: RecordName, payload: Payload, named: Option<nat>, queue: bool) returns (revision: nat)
      modifies this
      ensures revision == (if named.Some? then named.value else 0) + 1
      ensures CellOf(r) ==
              var c := old(CellOf(r));
              var expected := if c.pending.Some? && c.pending.value.expected.Some? then c.pending.value.expected else named;
              c.(pending := Some(Pending(revision, payload, expected, if c.pending.Some? then c.pending.value.retries else 0)),
                 pendingDelete := false,
                 rejected := c.rejected.(save := false),
                 queue := c.queue.(save := c.queue.save || queue))
      ensures forall q :: q != r ==> CellOf(q) == old(CellOf(q))
    {
      revision := (if named.Some? then named.value else 0) + 1;
      var expected := named;
      var retries := 0;
      if r in pending {
        retries := pending[r].retries;
        if pending[r].expected.Some? {
          expected := pending[r].expected;
        }
      }
      pending := pending[r := Pending(revision, payload, expected, retries)];
      pendingDeletes := pendingDeletes - {r};
      rejectedSaves := rejectedSaves - {r};
      if queue {
        queuedSaves := queuedSaves + {r};
      }
    }

    method SaveWorkbook(r: RecordName, payload: Payload, base: Option<int>, keepLocal: bool, io: SaveIo)
      returns (outcome: SaveOutcome)
      modifies this
      ensures (CellOf(r), outcome) == CloudRecord.SaveWorkbook(old(CellOf(r)), payload, base, keepLocal, io)
      ensures forall q :: q != r ==> CellOf(q) == old(CellOf(q))
    {
      if payload == [] || |payload| > MAX_PAYLOAD_BYTES {
        return QuotaExceeded;
      }
      if base.Some? && base.value < 1 {
        return InvalidRevision;
      }
      var open := ReviewConflict(r, base, keepLocal);
      if !open {
        return RevisionConflict;
      }
      if r in pending {
        if base != Some(pending[r].revision as int) {
          return RevisionConflict;
        }
      } else if r in remote {
        if base != Some(remote[r].revision as int) {
          return RevisionConflict;
        }
      } else if base.Some? {
        return RevisionConflict;
      }
      if io.PayloadWriteFails? {
        return Unwritten;
      }
      var revision := QueueUpload(r, payload, if base.Some? then Some(base.value) else None, io.Queued?);
      return Stored(revision);
    }

    method UpdateConflictNotice(r: RecordName, wanted: Option<Notice>, persisted: bool) returns (accepted: bool)
      modifies this
      ensures accepted == old(r in remote)
      ensures CellOf(r) == UpdateNotice(old(CellOf(r)), wanted, persisted)
      ensures forall q :: q != r ==> CellOf(q) == old(CellOf(q))
    {
      if r !in remote {
        return false;
      }
      pendingConflictNotices := pendingConflictNotices[r := NoticeUpdate(wanted, 0)];
      if wanted.None? {
        conflicts := conflicts - {r};
      }
      rejectedConflictNotices := rejectedConflictNotices - {r};
      if persisted {
        queuedSaves := queuedSaves + {r};
      }
      return true;
    }

    method DeleteWorkbook(r: RecordName, persisted: bool)
      modifies this
      ensures CellOf(r) == CloudRecord.DeleteWorkbook(old(CellOf(r)), persisted)
      ensures forall q :: q != r ==> CellOf(q) == old(CellOf(q))
    {
      pending := pending - {r};
      pendingConflictNotices := pendingConflictNotices - {r};
      queuedSaves := queuedSaves - {r};
      pendingDeletes := pendingDeletes + {r};
      rejectedDeletes := rejectedDeletes - {r};
      conflicts := conflicts - {r};
      if persisted {
        queuedDeletes := queuedDeletes + {r};
      }
    }

    /** A queued upload is read back as it is; otherwise a readable cached copy releases the latch. */
    method DownloadWorkbook(r: RecordName, readable: bool) returns (revision: Option<nat>)
      modifies this
      ensures CellOf(r) == CloudRecord.DownloadWorkbook(old(CellOf(r)), readable)
      ensures forall q :: q != r ==> CellOf(q) == old(CellOf(q))
      ensures revision.Some? ==>
                readable && revision == if old(r in pending) then Some(old(pending)[r].revision) else RevisionOf(old(CellOf(r)).remote)
    {
      if r in pending {
        return if readable then Some(pending[r].revision) else None;
      }
      if r !in remote || !readable {
        return None;
      }
      conflicts := conflicts - {r};
      return Some(remote[r].revision);
    }

    method RecoverRemote(r: RecordName, found: Copy)
      modifies this
      ensures CellOf(r) == Apply(old(CellOf(r)), Recovered(found))
      ensures forall q :: q != r ==> CellOf(q) == old(CellOf(q))
    {
      remote := remote[r := found];
    }

    // ----- Sync-engine events -----

    method ApplyFetchedRecord(r: RecordName, copy: Copy)
      modifies this
      ensures CellOf(r) == CloudRecord.ApplyFetchedRecord(old(CellOf(r)), copy)
      ensures forall q :: q != r ==> CellOf(q) == old(CellOf(q))
    {
      AcknowledgeConflictNoticeIfMatched(r, copy);
      if r in pending {
        if pending[r].revision == copy.revision && pending[r].payload == copy.payload {
          remote := remote[r := copy];
          pending := pending - {r};
          conflicts := conflicts - {r};
          queuedSaves := queuedSaves - {r};
          if r in pendingConflictNotices {
            queuedSaves := queuedSaves + {r};
          }
          return;
        }
        if pending[r].expected != Some(copy.revision) {
          LatchConflict(r, Some(copy.revision), false);
        }
      }
      remote := remote[r := copy];
    }

    method ApplyFetchedDeletion(r: RecordName)
      modifies this
      ensures CellOf(r) == CloudRecord.ApplyFetchedDeletion(old(CellOf(r)))
      ensures forall q :: q != r ==> CellOf(q) == old(CellOf(q))
    {
      if r in pending {
        LatchConflict(r, None, true);
      }
      remote := remote - {r};
      pendingConflictNotices := pendingConflictNotices - {r};
    }

    method ApplySavedRecord(r: RecordName, copy: Copy) returns (changed: bool)
      modifies this
      ensures CellOf(r) == CloudRecord.ApplySavedRecord(old(CellOf(r)), copy)
      ensures forall q :: q != r ==> CellOf(q) == old(CellOf(q))
    {
      var hadPending := r in pending;
      if hadPending && copy.revision != pending[r].revision {
        return false;
      }
      if !hadPending && r !in pendingConflictNotices {
        return false;
      }
      remote := remote[r := copy];
      if hadPending {
        pending := pending - {r};
        conflicts := conflicts - {r};
      }
      AcknowledgeConflictNoticeIfMatched(r, copy);
      assert forall q :: q != r ==> CellOf(q) == old(CellOf(q));
      if r in pendingConflictNotices {
        queuedSaves := queuedSaves + {r};
      }
      return true;
    }

    method ApplySavedDeletion(r: RecordName)
      modifies this
      ensures CellOf(r) == CloudRecord.ApplySavedDeletion(old(CellOf(r)))
      ensures forall q :: q != r ==> CellOf(q) == old(CellOf(q))
    {
      remote := remote - {r};
      pending := pending - {r};
      pendingConflictNotices := pendingConflictNotices - {r};
      pendingDeletes := pendingDeletes - {r};
      conflicts := conflicts - {r};
      rejectedDeletes := rejectedDeletes - {r};
    }

    method RetryUpload(r: RecordName) returns (retry: bool)
      modifies this
      ensures (CellOf(r), retry) == CloudRecord.RetryUpload(old(CellOf(r)))
      ensures forall q :: q != r ==> CellOf(q) == old(CellOf(q))
    {
      if r !in pending {
        return false;
      }
      var update := pending[r];
      var remoteRevision := if r in remote then Some(remote[r].revision) else None;
      if update.expected == remoteRevision && update.retries < 1 {
        pending := pending[r := update.(retries := update.retries + 1)];
        return true;
      }
      LatchConflict(r, remoteRevision, false);
      return false;
    }

    method RetryNotice(r: RecordName) returns (retry: bool)
      modifies this
      ensures (CellOf(r), retry) == CloudRecord.RetryNotice(old(CellOf(r)))
      ensures forall q :: q != r ==> CellOf(q) == old(CellOf(q))
    {
      if r !in pendingConflictNotices {
        return false;
      }
      var update := pendingConflictNotices[r];
      if update.retries < 1 {
        pendingConflictNotices := pendingConflictNotices[r := update.(retries := update.retries + 1)];
        return true;
      }
      pendingConflictNotices := pendingConflictNotices - {r};
      rejectedConflictNotices := rejectedConflictNotices + {r};
      return false;
    }

    method HandleServerRecordChanged(r: RecordName, server: Option<Copy>)
      modifies this
      ensures CellOf(r) == CloudRecord.HandleServerRecordChanged(old(CellOf(r)), server)
      ensures forall q :: q != r ==> CellOf(q) == old(CellOf(q))
    {
      if server.Some? {
        ApplyFetchedRecord(r, server.value);
      }
      var retryUpload := RetryUpload(r);
      var retryNotice := RetryNotice(r);
      queuedSaves := if retryUpload || retryNotice then queuedSaves + {r} else queuedSaves - {r};
    }

    method HandleFailedSave(r: RecordName, error: SaveError)
      modifies this
      ensures CellOf(r) == CloudRecord.HandleFailedSave(old(CellOf(r)), error)
      ensures forall q :: q != r ==> CellOf(q) == old(CellOf(q))
    {
      match error
      case ServerRecordChanged(server) =>
        HandleServerRecordChanged(r, server);
      case SaveZoneNotFound =>
        queuedSaves := queuedSaves + {r};
      case SaveUnknownItem =>
        if r in pendingConflictNotices {
          pendingConflictNotices := pendingConflictNotices - {r};
          rejectedConflictNotices := rejectedConflictNotices + {r};
          queuedSaves := queuedSaves - {r};
        } else if r !in pending || pending[r].expected.None? {
          queuedSaves := queuedSaves + {r};
        } else {
          LatchConflict(r, None, true);
          queuedSaves := queuedSaves - {r};
        }
      case SaveTransient =>
      case SaveTerminal =>
        queuedSaves := queuedSaves - {r};
        if r in pending {
          pending := pending - {r};
          rejectedSaves := rejectedSaves + {r};
        }
        if r in pendingConflictNotices {
          rejectedConflictNotices := rejectedConflictNotices + {r};
        }
        pendingConflictNotices := pendingConflictNotices - {r};
    }

    method HandleFailedDelete(r: RecordName, error: DeleteError)
      modifies this
      ensures CellOf(r) == CloudRecord.HandleFailedDelete(old(CellOf(r)), error)
      ensures forall q :: q != r ==> CellOf(q) == old(CellOf(q))
    {
      match error
      case DeleteUnknownItem => ApplySavedDeletion(r);
      case DeleteZoneNotFound => ApplySavedDeletion(r);
      case DeleteTransient =>
      case DeleteTerminal =>
        pendingDeletes := pendingDeletes - {r};
        rejectedDeletes := rejectedDeletes + {r};
    }

    /** Loses every cached copy and every latch at once; queued work stays. */
    method ClearRemoteCache()
      modifies this
      ensures forall q :: CellOf(q) == CloudRecord.ClearRemoteCache(old(CellOf(q)))
    {
      remote := map[];
      conflicts := map[];
    }

    method ResetForAccountChange(preservePending: bool)
      modifies this
      ensures forall q :: CellOf(q) == CloudRecord.ResetForAccountChange(old(CellOf(q)), preservePending)
    {
      var retainedPending := if preservePending then pending else map[];
      var retainedDeletes := if preservePending then pendingDeletes else {};
      ClearRemoteCache();
      pendingConflictNotices := map[];
      rejectedSaves, rejectedConflictNotices, rejectedDeletes := {}, {}, {};
      pending := retainedPending;
      pendingDeletes := retainedDeletes;
      // The engine forgets its own queue on an account change; what is kept is queued again.
      queuedSaves := pending.Keys;
      queuedDeletes := pendingDeletes;
    }

    method SeedEngine()
      modifies this
      ensures forall q :: CellOf(q) == Reseed(old(CellOf(q)))
    {
      queuedSaves := queuedSaves + pending.Keys + pendingConflictNotices.Keys;
      queuedDeletes := queuedDeletes + pendingDeletes;
    }

    /** A record with nothing left to send leaves the queue. */
    method RecordToSave(r: RecordName) returns (record: Option<Outgoing>)
      modifies this`queuedSaves
      ensures record == CloudRecord.RecordToSave(old(CellOf(r)))
      ensures queuedSaves == if r in pending || r in pendingConflictNotices then old(queuedSaves) else old(queuedSaves) - {r}
    {
      if r !in pending && r !in pendingConflictNotices {
        queuedSaves := queuedSaves - {r};
        return None;
      }
      if r !in remote && r !in pending {
        return None;
      }
      var tag := if r in remote then Some(remote[r].tag) else None;
      var revision, payload := 0, [];
      if r in pending {
        revision, payload := pending[r].revision, pending[r].payload;
      } else {
        revision, payload := remote[r].revision, remote[r].payload;
      }
      var notice := None;
      if r in pendingConflictNotices {
        notice := pendingConflictNotices[r].wanted;
      } else if r in remote {
        notice := remote[r].notice;
      }
      return Some(Outgoing(r in pending, tag, revision, payload, notice));
    }

    // ----- Every step of the store -----

    ghost predicate Valid()
      reads this
    {
      forall q :: Coherent(CellOf(q))
    }

    /** Reported rejections and the engine's own bookkeeping touch one flag each. */
    method Forget(r: RecordName, e: Event)
      requires e.SaveReported? || e.NoticeReported? || e.DeleteReported? || e.EngineDequeued?
      modifies this
      ensures CellOf(r) == Apply(old(CellOf(r)), e)
      ensures forall q :: q != r ==> CellOf(q) == old(CellOf(q))
    {
      match e
      case SaveReported => rejectedSaves := rejectedSaves - {r};
      case NoticeReported => rejectedConflictNotices := rejectedConflictNotices - {r};
      case DeleteReported => rejectedDeletes := rejectedDeletes - {r};
      case EngineDequeued =>
        queuedSaves := queuedSaves - {r};
        queuedDeletes := queuedDeletes - {r};
    }

    predicate IsStoreWide(e: Event) {
      e.ZoneDeleted? || e.AccountChanged? || e.Reseeded?
    }

    predicate IsRequest(e: Event) {
      e.Save? || e.PublishNotice? || e.ClearNotice? || e.Delete? || e.Download? || e.Recovered?
    }

    method Request(r: RecordName, e: Event)
      requires IsRequest(e)
      modifies this
      ensures CellOf(r) == Apply(old(CellOf(r)), e)
      ensures forall q :: q != r ==> CellOf(q) == old(CellOf(q))
    {
      match e
      case Save(payload, base, keepLocal, io) => var _ := SaveWorkbook(r, payload, base, keepLocal, io);
      case PublishNotice(notice, persisted) => var _ := UpdateConflictNotice(r, Some(notice), persisted);
      case ClearNotice(persisted) => var _ := UpdateConflictNotice(r, None, persisted);
      case Delete(persisted) => DeleteWorkbook(r, persisted);
      case Download(readable) => var _ := DownloadWorkbook(r, readable);
      case Recovered(found) => RecoverRemote(r, found);
    }

    method RecordEvent(r: RecordName, e: Event)
      requires !IsRequest(e) && !IsStoreWide(e)
      modifies this
      ensures CellOf(r) == Apply(old(CellOf(r)), e)
      ensures forall q :: q != r ==> CellOf(q) == old(CellOf(q))
    {
      match e
      case Fetched(copy) => if copy.Some? { ApplyFetchedRecord(r, copy.value); }
      case FetchedDeletion => ApplyFetchedDeletion(r);
      case Saved(copy) => if copy.Some? { var _ := ApplySavedRecord(r, copy.value); }
      case SavedDeletion => ApplySavedDeletion(r);
      case SaveFailed(error) => HandleFailedSave(r, error);
      case DeleteFailed(error) => HandleFailedDelete(r, error);
      case SaveReported => Forget(r, e);
      case NoticeReported => Forget(r, e);
      case DeleteReported => Forget(r, e);
      case EngineDequeued => Forget(r, e);
    }

    method StoreEvent(e: Event)
      requires IsStoreWide(e)
      modifies this
      ensures forall q :: CellOf(q) == Apply(old(CellOf(q)), e)
    {
      match e
      case ZoneDeleted => ClearRemoteCache();
      case AccountChanged(preservePending) => ResetForAccountChange(preservePending);
      case Reseeded => SeedEngine();
    }

    /** Any request or event keeps the invariant for every record, given the guard on recovery. */
    method Handle(r: RecordName, e: Event)
      requires Valid() && RecoveryIsSafe(CellOf(r), e)
      modifies this
      ensures CellOf(r) == Apply(old(CellOf(r)), e)
      ensures forall q :: q != r ==> CellOf(q) == if IsStoreWide(e) then Apply(old(CellOf(q)), e) else old(CellOf(q))
      ensures Valid()
    {
      if IsStoreWide(e) {
        StoreEvent(e);
      } else if IsRequest(e) {
        Request(r, e);
      } else {
        RecordEvent(r, e);
      }
      forall q ensures Coherent(CellOf(q)) {
        assert Coherent(old(CellOf(q)));
        if q == r || IsStoreWide(e) {
          StepKeepsCoherent(old(CellOf(q)), e);
        }
      }
    }
  }
}
