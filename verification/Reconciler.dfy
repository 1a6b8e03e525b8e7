/**
 Reconciling a device's workbook with the server: download, three-way merge, guarded upload, and
 one retry. Other devices, the user and earlier queued uploads may act at every wait.

 The server accepts an upload only against the revision it names and never reuses a revision.
 */
module Reconciler {
  import opened Options
  import opened WorkbookMerge

  /** A committed version. Revision 0 is no revision. */
  datatype Committed = Committed(revision: nat, content: Json)

  /** The open workbook; a new object, with a new stamp, for every change. */
  datatype Copy = Copy(stamp: nat, content: Json)

  /** The stored anchor: revision 0 means unknown. */
  datatype SyncState = SyncState(revision: nat, conflict: bool, baseRevision: nat, base: Option<Json>)

  /** One merge of the local branch with the version the server held, to be offered in its place. */
  datatype Attempt = Attempt(base: Option<Json>, local: Json, remote: Committed, merged: Json)

  datatype Queued = Queued(attempt: Attempt, revision: nat)

  datatype Accepted = Accepted(attempt: Attempt, replaced: Committed)

  /** What may happen while the reconciler waits. */
  datatype Event = OtherDevice(revision: nat, content: Json) | UserEdit(content: Json) | Deliver

  datatype DownloadReply = Downloaded | DownloadFault(retryable: bool) | ForeignWorkbook | UnknownRevision

  datatype UploadReply =
    | Answered(gap: nat)
    | QueuedLocally(gap: nat)
    | RefusedAsStale
    | UploadFault(retryable: bool)
    | AnswerLost(gap: nat, retryable: bool)
    | AnswerGarbled(gap: nat, foreignId: bool)

  /** The environment's moves in one attempt. */
  datatype Round = Round(
    download: DownloadReply,
    beforeDownload: seq<Event>,
    afterDownload: seq<Event>,
    saved: bool,
    beforeUpload: seq<Event>,
    upload: UploadReply,
    anchorSaved: bool)

  datatype Code =
    | WorkbookChanged | DownloadFailed | IdentityMismatch | RevisionMissing | Conflict
    | SaveFailed | UploadFailed | AnchorNotSaved | ChangedAgain

  datatype Outcome =
    | Failed(code: Code, retry: bool)
    | Synced(revision: nat, guard: Copy, pending: bool)

  datatype UploadEnd = Ended(outcome: Outcome) | Stale | Took(revision: nat) | Waiting(revision: nat)

  /** An attempt in which nobody else acts and nothing fails. */
  predicate Quiet(r: Round) {
    && r.download.Downloaded? && r.beforeDownload == [] && r.afterDownload == [] && r.beforeUpload == []
    && r.saved && r.upload.Answered? && r.anchorSaved
  }

  /** Only other devices act, and they commit versions of this workbook. */
  predicate OthersCommit(events: seq<Event>, workbookId: string) {
    forall i :: 0 <= i < |events| ==> events[i].OtherDevice? && IdOf(events[i].content) == workbookId
  }

  /** An attempt in which nothing fails, but other devices may commit at any wait. */
  predicate Calm(r: Round, workbookId: string) {
    && r.download.Downloaded? && r.saved && Answers(r)
    && OthersCommit(r.beforeDownload, workbookId) && OthersCommit(r.afterDownload, workbookId) && OthersCommit(r.beforeUpload, workbookId)
  }

  /** The server takes the upload, queues it or refuses it as stale, and the anchor is saved. */
  predicate Answers(r: Round) {
    r.anchorSaved && (r.upload.Answered? || r.upload.QueuedLocally? || r.upload.RefusedAsStale?)
  }

  function BaseOf(s: SyncState): Option<Json> {
    if s.base.Some? && s.baseRevision > 0 && (s.revision == 0 || s.baseRevision <= s.revision) then s.base else None
  }

  ghost predicate IsMerge(a: Attempt) {
    MergeSnapshots(a.base, a.local, a.remote.content) == Some(a.merged)
  }

  /** Nothing known up front stands in the way: the open copy is the one to reconcile, and it can be merged. */
  predicate Ready(current: Copy, server: Committed, workbookId: string, base: Option<Json>, branch: Json, guard: Copy) {
    && current == guard && IdOf(current.content) == workbookId == IdOf(server.content)
    && MergeSnapshots(base, branch, server.content).Some?
  }

  lemma SameWorkbookIsReady(current: Copy, server: Committed, workbookId: string, base: Option<Json>, branch: Json, guard: Copy, later: Committed)
    requires Ready(current, server, workbookId, base, branch, guard) && guard.content == branch
    requires IdOf(later.content) == workbookId
    ensures Ready(current, later, workbookId, base, branch, guard)
  {
  }

  /** The server, everything it ever committed, this device's accepted uploads, and its queued one. */
  datatype World = World(server: Committed, history: set<Committed>, accepted: seq<Accepted>, queued: Option<Queued>)

  /** The attempt merged a version the server really committed. */
  ghost predicate Honest(a: Attempt, history: set<Committed>) {
    a.remote in history && IsMerge(a)
  }

  /** Every accepted upload was the merge of its base and branch with exactly the version it replaced. */
  ghost predicate AcceptedAreMerges(w: World) {
    forall e :: e in w.accepted ==> Honest(e.attempt, w.history) && e.replaced == e.attempt.remote
  }

  ghost predicate RevisionsFixContent(w: World) {
    && w.server in w.history && w.server.revision > 0
    && (forall c :: c in w.history ==> c.revision <= w.server.revision)
    && (forall c, d :: c in w.history && d in w.history && c.revision == d.revision ==> c == d)
  }

  ghost predicate Sane(w: World) {
    && RevisionsFixContent(w)
    && AcceptedAreMerges(w)
    && (w.queued.Some? ==> Honest(w.queued.value.attempt, w.history) && w.queued.value.revision > w.queued.value.attempt.remote.revision)
  }

  /** History only grows; this device's newly accepted or queued uploads come from these attempts or its old queue. */
  ghost predicate Leads(w: World, w': World, attempts: seq<Attempt>) {
    && w.history <= w'.history
    && w.accepted <= w'.accepted
    && (forall e :: e in w'.accepted ==>
          e in w.accepted || e.attempt in attempts || (w.queued.Some? && e.attempt == w.queued.value.attempt))
    && (w'.queued.Some? ==> w'.queued == w.queued || w'.queued.value.attempt in attempts)
  }

  lemma LeadsOn(w: World, w1: World, w2: World, earlier: seq<Attempt>, later: seq<Attempt>)
    requires Leads(w, w1, earlier) && Leads(w1, w2, later)
    ensures Leads(w, w2, earlier + later)
  {
  }

  /** Each attempt continues the one before: its base is what that one downloaded, its branch what that one merged. */
  ghost predicate Chained(attempts: seq<Attempt>, base: Option<Json>, local: Json) {
    match |attempts|
    case 0 => true
    case 1 => attempts[0].base == base && attempts[0].local == local
    case 2 =>
      && attempts[0].base == base && attempts[0].local == local
      && attempts[1].base == Some(attempts[0].remote.content) && attempts[1].local == attempts[0].merged
    case _ => false
  }

  ghost predicate AllHonest(attempts: seq<Attempt>, history: set<Committed>) {
    forall a :: a in attempts ==> Honest(a, history)
  }

  /** Where the attempts so far have led, and what the next one starts from. */
  ghost predicate Carried(w: World, w': World, attempts: seq<Attempt>, start: (Option<Json>, Json), next: (Option<Json>, Json)) {
    && Sane(w') && Leads(w, w', attempts)
    && AllHonest(attempts, w'.history) && Chained(attempts, start.0, start.1)
    && next == if attempts == [] then start
               else (Some(attempts[|attempts| - 1].remote.content), attempts[|attempts| - 1].merged)
  }

  lemma CarriedOn(w: World, w1: World, w2: World, attempts: seq<Attempt>, start: (Option<Json>, Json), next: (Option<Json>, Json), a: Attempt)
    requires Carried(w, w1, attempts, start, next) && |attempts| < 2
    requires Sane(w2) && Leads(w1, w2, [a]) && Honest(a, w2.history) && (a.base, a.local) == next
    ensures Carried(w, w2, attempts + [a], start, (Some(a.remote.content), a.merged))
  {
    LeadsOn(w, w1, w2, attempts, [a]);
  }

  // ----- The server and the other parties -----

  /** The server's whole rule: a write replaces the version it names, under a higher revision. */
  function Offered(w: World, a: Attempt, revision: nat): (r: World)
    requires Sane(w) && Honest(a, w.history) && revision > a.remote.revision
    ensures Sane(r) && Leads(w, r, [a])
    ensures w.server.revision == a.remote.revision ==> r.server == Committed(revision, a.merged)
  {
    if w.server.revision != a.remote.revision then w
    else
      var version := Committed(revision, a.merged);
      w.(server := version, history := w.history + {version}, accepted := w.accepted + [Accepted(a, w.server)])
  }

  function Happened(w: World, e: Event): (r: World)
    requires Sane(w)
    ensures Sane(r) && Leads(w, r, [])
  {
    match e
    case OtherDevice(revision, content) =>
      if revision > w.server.revision then
        w.(server := Committed(revision, content), history := w.history + {Committed(revision, content)})
      else w
    case UserEdit(_) => w
    case Deliver =>
      if w.queued.Some? then Offered(w, w.queued.value.attempt, w.queued.value.revision).(queued := None) else w
  }

  /** The stored base is a version the server committed under the stored base revision. */
  ghost predicate AnchorIsCommitted(sync: SyncState, history: set<Committed>) {
    BaseOf(sync).Some? ==> Committed(sync.baseRevision, BaseOf(sync).value) in history
  }

  /** The open workbook is still this copy, or the user has edited it since. */
  predicate Follows(current: Copy, copy: Copy) {
    current == copy || current.stamp > copy.stamp
  }

  /** What a finished synchronisation leaves: the local copy, the anchor and the server's content at its revision agree. */
  ghost predicate Agrees(end: Outcome, a: Attempt, w: World, current: Copy, sync: SyncState)
    requires end.Synced?
  {
    && end.guard.content == a.merged
    && Follows(current, end.guard)
    && if end.pending then
         && sync == SyncState(end.revision, false, a.remote.revision, Some(a.remote.content))
         && w.queued == Some(Queued(a, end.revision))
       else
         && sync == SyncState(end.revision, false, end.revision, Some(a.merged))
         && Committed(end.revision, a.merged) in w.history
  }

  /** A failure leaves the anchor alone, except that it may latch a conflict. */
  predicate AnchorKept(before: SyncState, after: SyncState) {
    after == before || after == before.(conflict := true)
  }

  /** So what the server ends up with, along any aligned path, is settled between base, branch and the replaced version. */
  lemma AcceptedUploadSettles(w: World, e: Accepted, path: Path)
    requires Sane(w) && e in w.accepted && e.attempt.base.Some?
    requires Aligned(e.attempt.base, Some(e.attempt.local), Some(e.replaced.content), path)
    ensures Settles(At(e.attempt.base, path), At(Some(e.attempt.local), path), At(Some(e.replaced.content), path),
                    At(Some(e.attempt.merged), path))
  {
    MergeSettlesEveryPath(e.attempt.base, Some(e.attempt.local), Some(e.replaced.content), path);
  }

  class Device {
    var world: World
    var current: Copy
    var sync: SyncState

    constructor (server: Committed, current: Copy, sync: SyncState)
      requires server.revision > 0
      ensures Sane(world) && world == World(server, {server}, [], None)
      ensures this.current == current && this.sync == sync
    {
      world := World(server, {server}, [], None);
      this.current, this.sync := current, sync;
    }

    /** What the others do while the reconciler waits. */
    method Wait(events: seq<Event>)
      requires Sane(world)
      modifies `world, `current
      ensures Sane(world) && Leads(old(world), world, []) && Follows(current, old(current))
      ensures events == [] ==> world == old(world) && current == old(current)
      ensures forall id :: OthersCommit(events, id) && IdOf(old(world).server.content) == id ==>
                current == old(current) && IdOf(world.server.content) == id
    {
      var i := 0;
      while i < |events|
        invariant 0 <= i <= |events| && Sane(world)
        invariant Leads(old(world), world, []) && Follows(current, old(current))
        invariant i == 0 ==> world == old(world) && current == old(current)
        invariant OthersCommit(events, IdOf(old(world).server.content)) ==>
                    current == old(current) && IdOf(world.server.content) == IdOf(old(world).server.content)
      {
        ghost var before := world;
        world := Happened(world, events[i]);
        LeadsOn(old(world), before, world, [], []);
        if events[i].UserEdit? {
          current := Copy(current.stamp + 1, events[i].content);
        }
        i := i + 1;
      }
    }

    /** Downloads the committed copy while the open workbook is still the expected one; the reply may not be usable. */
    method FetchRemote(workbookId: string, guard: Copy, round: Round) returns (failure: Option<Outcome>, remote: Committed)
      requires Sane(world)
      modifies this
      ensures Sane(world) && Leads(old(world), world, [])
      ensures remote in world.history
      ensures failure.Some? ==> failure.value.Failed? && failure.value.code != AnchorNotSaved
      ensures AnchorKept(old(sync), sync)
      ensures failure.None? ==> current == guard && IdOf(remote.content) == workbookId && sync == old(sync)
      ensures Quiet(round) ==>
                && remote == world.server == old(world).server
                && (failure.None? <==> old(current) == guard && IdOf(guard.content) == workbookId == IdOf(remote.content))
      ensures Calm(round, workbookId) && IdOf(old(world).server.content) == workbookId ==>
                && IdOf(remote.content) == workbookId == IdOf(world.server.content)
                && (failure.None? <==> old(current) == guard && IdOf(guard.content) == workbookId)
    {
      if current != guard || IdOf(current.content) != workbookId {
        return Some(Failed(WorkbookChanged, true)), world.server;
      }
      Wait(round.beforeDownload);
      remote := world.server;
      ghost var served := world;
      Wait(round.afterDownload);
      LeadsOn(old(world), served, world, [], []);
      if round.download.DownloadFault? {
        return Some(Failed(DownloadFailed, round.download.retryable)), remote;
      }
      if round.download.ForeignWorkbook? || IdOf(remote.content) != workbookId {
        sync := sync.(conflict := true);
        return Some(Failed(IdentityMismatch, false)), remote;
      }
      if current != guard {
        return Some(Failed(WorkbookChanged, true)), remote;
      }
      if round.download.UnknownRevision? {
        return Some(Failed(RevisionMissing, true)), remote;
      }
      return None, remote;
    }

    /** Downloads and merges; the merge is honest about what the server held. */
    method FetchAndMerge(workbookId: string, base: Option<Json>, branch: Json, guard: Copy, round: Round)
      returns (failure: Option<Outcome>, a: Attempt)
      requires Sane(world)
      modifies this
      ensures Sane(world) && Leads(old(world), world, [])
      ensures failure.Some? ==> failure.value.Failed? && failure.value.code != AnchorNotSaved
      ensures AnchorKept(old(sync), sync)
      ensures failure.None? ==> current == guard && a.base == base && a.local == branch && Honest(a, world.history)
      ensures Quiet(round) && Ready(old(current), old(world).server, workbookId, base, branch, guard) ==>
                failure.None? && a.remote == world.server && IdOf(a.merged) == workbookId
      ensures Calm(round, workbookId) && guard.content == branch
              && Ready(old(current), old(world).server, workbookId, base, branch, guard) ==>
                && failure.None? && IdOf(a.merged) == workbookId == IdOf(world.server.content)
                && Ready(current, a.remote, workbookId, base, branch, guard)
    {
      var remote;
      failure, remote := FetchRemote(workbookId, guard, round);
      a := Attempt(base, branch, remote, branch);
      if failure.None? {
        if Calm(round, workbookId) && guard.content == branch && Ready(old(current), old(world).server, workbookId, base, branch, guard) {
          SameWorkbookIsReady(current, old(world).server, workbookId, base, branch, guard, remote);
        }
        var merged := MergeSnapshots(base, branch, remote.content);
        if merged.None? {
          sync := sync.(conflict := true);
          failure := Some(Failed(Conflict, false));
        } else {
          MergeKeepsIdentity(base, branch, remote.content);
          a := Attempt(base, branch, remote, merged.value);
        }
      }
    }

    /** Applies the merge to the open workbook, unless the user has changed it meanwhile, and saves it locally. */
    method SaveMerged(workbookId: string, guard: Copy, a: Attempt, round: Round) returns (failure: Option<Outcome>, saved: Copy)
      requires Sane(world) && current == guard && guard.content == a.local
      modifies `world, `current
      ensures Sane(world) && Leads(old(world), world, [])
      ensures failure.Some? ==> failure.value.Failed? && failure.value.code != AnchorNotSaved
      ensures failure.None? ==> saved.content == a.merged && Follows(current, saved)
      ensures Quiet(round) && IdOf(a.merged) == workbookId ==> failure.None? && current == saved && world == old(world)
      ensures Calm(round, workbookId) && IdOf(a.merged) == workbookId == IdOf(old(world).server.content) ==>
                failure.None? && current == saved && IdOf(world.server.content) == workbookId
    {
      saved := guard;
      if a.merged != a.local {
        if IdOf(a.merged) != workbookId {
          return Some(Failed(WorkbookChanged, true)), saved;
        }
        saved := Copy(current.stamp + 1, a.merged);
        current := saved;
      }
      Wait(round.beforeUpload);
      failure := if a.merged != a.local && !round.saved then Some(Failed(SaveFailed, false)) else None;
    }

    /** Whether the upload was accepted, queued for later, refused as stale, or failed. */
    method UploadMerged(a: Attempt, reply: UploadReply) returns (end: UploadEnd)
      requires Sane(world) && Honest(a, world.history)
      modifies `world
      ensures Sane(world) && Leads(old(world), world, [a])
      ensures end.Ended? ==> end.outcome.Failed? && end.outcome.code != AnchorNotSaved
      ensures end.Took? ==> Committed(end.revision, a.merged) == world.server
      ensures end.Waiting? ==> world.queued == Some(Queued(a, end.revision))
      ensures reply.Answered? ==> (end.Took? <==> old(world).server.revision == a.remote.revision)
      ensures end.Stale? ==> world.server == old(world).server
      ensures end.Ended? ==> reply.UploadFault? || reply.AnswerLost? || reply.AnswerGarbled?
    {
      var current := world.server.revision == a.remote.revision;
      match reply {
        case RefusedAsStale =>
          return Stale;
        case UploadFault(retryable) =>
          return Ended(Failed(UploadFailed, retryable));
        case QueuedLocally(gap) =>
          world := world.(queued := Some(Queued(a, a.remote.revision + 1 + gap)));
          return Waiting(a.remote.revision + 1 + gap);
        case Answered(gap) =>
          world := Offered(world, a, a.remote.revision + 1 + gap).(queued := None);
          return if current then Took(a.remote.revision + 1 + gap) else Stale;
        case AnswerLost(gap, retryable) =>
          world := Offered(world, a, a.remote.revision + 1 + gap).(queued := None);
          return Ended(Failed(UploadFailed, retryable));
        case AnswerGarbled(gap, foreignId) =>
          world := Offered(world, a, a.remote.revision + 1 + gap).(queued := None);
          return if current then Ended(Failed(if foreignId then IdentityMismatch else RevisionMissing, !foreignId)) else Stale;
      }
    }

    /** Records what the server is known to hold; the write may fail after the anchor changed in memory. */
    method WriteAnchor(revision: nat, base: Committed, saved: bool, guard: Copy, pending: bool) returns (end: Outcome)
      modifies `sync
      ensures sync == SyncState(revision, false, base.revision, Some(base.content))
      ensures end == if saved then Synced(revision, guard, pending) else Failed(AnchorNotSaved, false)
    {
      sync := SyncState(revision, false, base.revision, Some(base.content));
      end := if saved then Synced(revision, guard, pending) else Failed(AnchorNotSaved, false);
    }

    /** Uploads the merge if the server does not hold it already, and records what the server is known to hold. */
    method Publish(a: Attempt, saved: Copy, round: Round) returns (end: Option<Outcome>)
      requires Sane(world) && Honest(a, world.history) && saved.content == a.merged && Follows(current, saved)
      modifies `world, `sync
      ensures Sane(world) && Leads(old(world), world, [a])
      ensures end.Some? && end.value.Synced? ==> Agrees(end.value, a, world, current, sync)
      ensures AnchorKept(old(sync), sync) || (AnchorIsCommitted(sync, world.history) && end.Some? && (end.value.Synced? || end.value.code == AnchorNotSaved))
      ensures Quiet(round) && old(world).server == a.remote ==> end.Some? && end.value.Synced? && world.server.content == a.merged
      ensures Answers(round) ==> if end.Some? then end.value.Synced? else world.server == old(world).server
    {
      if a.merged == a.remote.content {
        var synced := WriteAnchor(a.remote.revision, a.remote, round.anchorSaved, saved, false);
        return Some(synced);
      }
      var upload := UploadMerged(a, round.upload);
      match upload {
        case Ended(outcome) =>
          end := Some(outcome);
        case Stale =>
          end := None;
        case Took(revision) =>
          var synced := WriteAnchor(revision, Committed(revision, a.merged), round.anchorSaved, saved, false);
          end := Some(synced);
        case Waiting(revision) =>
          var synced := WriteAnchor(revision, a.remote, round.anchorSaved, saved, true);
          end := Some(synced);
      }
    }

    /** One attempt. It ends the reconciliation, or reports that the server moved under it. */
    method Try(workbookId: string, base: Option<Json>, branch: Json, guard: Copy, round: Round)
      returns (end: Option<Outcome>, attempt: Option<Attempt>, saved: Copy)
      requires Sane(world) && guard.content == branch
      modifies this
      ensures Sane(world)
      ensures Leads(old(world), world, if attempt.Some? then [attempt.value] else [])
      ensures attempt.Some? ==> Honest(attempt.value, world.history) && attempt.value.base == base && attempt.value.local == branch
      ensures end.None? ==> attempt.Some? && saved.content == attempt.value.merged && AnchorKept(old(sync), sync)
      ensures end.Some? && end.value.Synced? ==> attempt.Some? && Agrees(end.value, attempt.value, world, current, sync)
      ensures AnchorKept(old(sync), sync) || (AnchorIsCommitted(sync, world.history) && end.Some? && (end.value.Synced? || end.value.code == AnchorNotSaved))
      ensures Quiet(round) && Ready(old(current), old(world).server, workbookId, base, branch, guard) ==>
                end.Some? && end.value.Synced? && world.server.content == attempt.value.merged
      ensures Calm(round, workbookId) && Ready(old(current), old(world).server, workbookId, base, branch, guard) ==>
                if end.Some? then end.value.Synced?
                else Ready(current, world.server, workbookId, Some(attempt.value.remote.content), attempt.value.merged, saved)
    {
      attempt, saved := None, guard;
      var failure, a := FetchAndMerge(workbookId, base, branch, guard, round);
      if failure.Some? {
        return failure, attempt, saved;
      }
      attempt := Some(a);
      ghost var fetched := world;
      failure, saved := SaveMerged(workbookId, guard, a, round);
      ghost var stored := world;
      LeadsOn(old(world), fetched, stored, [], []);
      if failure.Some? {
        return failure, attempt, saved;
      }
      end := Publish(a, saved, round);
      LeadsOn(old(world), stored, world, [], [a]);
    }

    /** At most two attempts, the second starting from what the first downloaded and merged. */
    method Reconcile(workbookId: string, local: Copy, rounds: seq<Round>) returns (end: Outcome, attempts: seq<Attempt>)
      requires Sane(world) && |rounds| == 2
      modifies this
      ensures Sane(world) && Leads(old(world), world, attempts)
      ensures AllHonest(attempts, world.history) && Chained(attempts, BaseOf(old(sync)), local.content)
      ensures end.Synced? ==> attempts != [] && Agrees(end, attempts[|attempts| - 1], world, current, sync)
      ensures AnchorKept(old(sync), sync) || (AnchorIsCommitted(sync, world.history) && (end.Synced? || end.code == AnchorNotSaved))
      ensures Quiet(rounds[0]) && Ready(old(current), old(world).server, workbookId, BaseOf(old(sync)), local.content, local) ==>
                end.Synced? && world.server.content == attempts[0].merged
      ensures Calm(rounds[0], workbookId) && Quiet(rounds[1])
              && Ready(old(current), old(world).server, workbookId, BaseOf(old(sync)), local.content, local) ==>
                end.Synced?
    {
      var branch, guard, base := local.content, local, BaseOf(sync);
      ghost var start := (base, branch);
      ghost var ready := Ready(current, world.server, workbookId, base, branch, guard);
      attempts := [];
      var i := 0;
      while i < 2
        invariant 0 <= i <= 2 && |attempts| == i
        invariant Carried(old(world), world, attempts, start, (base, branch))
        invariant guard.content == branch
        invariant i == 0 ==> world == old(world) && current == old(current) && guard == local
        invariant i > 0 && ready ==> !Quiet(rounds[0])
        invariant i == 1 && ready && Calm(rounds[0], workbookId) ==> Ready(current, world.server, workbookId, base, branch, guard)
        invariant i == 2 && ready && Calm(rounds[0], workbookId) ==> !Quiet(rounds[1])
        invariant AnchorKept(old(sync), sync)
      {
        ghost var before := world;
        var stop, attempt, saved := Try(workbookId, base, branch, guard, rounds[i]);
        if attempt.Some? {
          CarriedOn(old(world), before, world, attempts, start, (base, branch), attempt.value);
          attempts := attempts + [attempt.value];
        } else {
          LeadsOn(old(world), before, world, attempts, []);
          assert attempts + [] == attempts;
        }
        if stop.Some? {
          return stop.value, attempts;
        }
        base, branch, guard := Some(attempt.value.remote.content), attempt.value.merged, saved;
        i := i + 1;
      }
      return Failed(ChangedAgain, true), attempts;
    }
  }
}
