/**
 One automatic sync of one entry: the checks that must pass before an upload, the revision the
 upload names, and the anchor written after it. Session checks, the listing of server workbooks
 and the upload's reply come from outside.
 */
module SyncStep {
  import opened Options
  import opened SyncState
  import AutoSync

  datatype Session = Session(signedIn: bool, anchorReady: bool, autoSyncOn: bool, conflicted: bool)

  /** The server's workbook as last listed. */
  datatype Listing = Listing(revision: int, conflict: bool)

  datatype Refusal =
    | NotSignedIn | AnchorNotReady | AutoSyncDisabled | RemoteDeleted | RevisionConflict
    | WorkbookMissing | RevisionRegressed | UploadFailed | IdentityMismatch | RevisionMissing | AnchorNotSaved

  datatype Decision = Refuse(refusal: Refusal) | Reconcile | Upload(expected: Option<int>)

  datatype Reply =
    | Conflicted
    | Failed(retryable: bool)
    | Replied(foreignId: bool, revision: Option<int>, pending: bool)

  datatype Outcome = Refused(refusal: Refusal, retry: bool) | Reconciling | Synced(revision: int, pending: bool)

  /** The base an upload uses: the entry's own, or else what the anchor knows. */
  function Expected(anchor: State, base: AutoSync.Base): Option<int> {
    if base.Fixed? then (if base.revision.Some? then Some(base.revision.value) else None)
    else if anchor.known then anchor.revision
    else None
  }

  function Decide(session: Session, anchor: State, listed: Option<Listing>, base: AutoSync.Base): Decision {
    if !session.signedIn then Refuse(NotSignedIn)
    else if !session.anchorReady then Refuse(AnchorNotReady)
    else if !session.autoSyncOn then Refuse(AutoSyncDisabled)
    else if anchor.remoteDeleted then Refuse(RemoteDeleted)
    else if anchor.conflict || session.conflicted then Refuse(RevisionConflict)
    else if listed.None? && anchor.known && anchor.revision.Some? then Refuse(WorkbookMissing)
    else if listed.Some? && anchor.revision.Some? && listed.value.revision < anchor.revision.value then Refuse(RevisionRegressed)
    else if listed.Some? && (listed.value.conflict || !anchor.known || anchor.revision != Some(listed.value.revision)) then Reconcile
    else Upload(Expected(anchor, base))
  }

  /** What the sync writes after an accepted or queued upload; a queued one keeps the old base. */
  function AnchorOptions(revision: int, pending: bool, workbook: Json): map<string, Json> {
    var head := map["revision" := Number(revision), "conflict" := Bool(false), "remoteDeleted" := Bool(false)];
    if pending then head else head["baseRevision" := Number(revision)]["baseWorkbook" := workbook]
  }

  function AnchorAfter(anchor: State, revision: int, pending: bool, workbook: Json, workbookId: string): State {
    Written(anchor, AnchorOptions(revision, pending, workbook), workbookId)
  }

  /** An upload goes out exactly when nothing blocks it and the anchor agrees with the listing, or both know of no workbook. */
  lemma UploadsIff(session: Session, anchor: State, listed: Option<Listing>, base: AutoSync.Base)
    ensures Decide(session, anchor, listed, base).Upload? <==>
            && session.signedIn && session.anchorReady && session.autoSyncOn && !session.conflicted
            && !anchor.remoteDeleted && !anchor.conflict
            && (match listed
                case None => !(anchor.known && anchor.revision.Some?)
                case Some(l) => !l.conflict && anchor.known && anchor.revision == Some(l.revision))
  {
  }

  /** A first attempt names exactly the listed version, or absence; a retry names what the first attempt did. */
  lemma UploadNamesListedVersion(session: Session, anchor: State, listed: Option<Listing>, base: AutoSync.Base)
    requires Decide(session, anchor, listed, base).Upload?
    ensures var expected := Decide(session, anchor, listed, base).expected;
            && (base.Unset? ==> expected == if listed.Some? then Some(listed.value.revision) else None)
            && (base.Fixed? ==> expected == if base.revision.Some? then Some(base.revision.value) else None)
  {
  }

  lemma AnchorIsWritten(anchor: State, revision: int, pending: bool, workbook: Json, workbookId: string)
    requires WellFormed(anchor, workbookId) && IsRevision(revision)
    requires AsWorkbook(workbook, workbookId).Some?
    ensures var after := AnchorAfter(anchor, revision, pending, workbook, workbookId);
            && after.known && after.revision == Some(revision) && !after.conflict && !after.remoteDeleted && after.notice.None?
            && after.base == if pending then anchor.base else Some(Base(revision, workbook))
  {
  }

  /** Durable storage accepts the new anchor exactly when the upload is settled or its revision is not below the base kept. */
  lemma AnchorIsStorableIff(anchor: State, revision: int, pending: bool, workbook: Json, workbookId: string)
    requires WellFormed(anchor, workbookId) && IsRevision(revision)
    requires AsWorkbook(workbook, workbookId).Some?
    ensures var after := AnchorAfter(anchor, revision, pending, workbook, workbookId);
            Parse(Serialized(after), workbookId) == Some(after)
            <==> !pending || anchor.base.None? || anchor.base.value.revision <= revision
  {
    var after := AnchorAfter(anchor, revision, pending, workbook, workbookId);
    AnchorIsWritten(anchor, revision, pending, workbook, workbookId);
    WrittenIsWellFormed(anchor, AnchorOptions(revision, pending, workbook), workbookId);
    SerializedReadsBack(after, workbookId);
  }

  /** The strict parser reads the anchor back as it is, or there is none yet. */
  ghost predicate Storable(anchor: State, workbookId: string) {
    anchor == UNKNOWN || (anchor.known && WellFormed(anchor, workbookId) && Parse(Serialized(anchor), workbookId) == Some(anchor))
  }

  /**
   A first attempt over a storable anchor, whose upload raised the revision it replaced, leaves a
   storable anchor exactly when the upload is settled, or the anchor had no base or also had a
   revision, or the new revision is not below that base all the same.
   */
  lemma FirstAttemptStaysStorableIff(session: Session, anchor: State, listed: Option<Listing>, revision: int, pending: bool,
                                     workbook: Json, workbookId: string)
    requires Storable(anchor, workbookId) && IsRevision(revision)
    requires AsWorkbook(workbook, workbookId).Some?
    requires Decide(session, anchor, listed, AutoSync.Unset).Upload?
    requires Expected(anchor, AutoSync.Unset).Some? ==> revision > Expected(anchor, AutoSync.Unset).value
    ensures Storable(AnchorAfter(anchor, revision, pending, workbook, workbookId), workbookId)
       <==> !pending || anchor.base.None? || anchor.revision.Some? || anchor.base.value.revision <= revision
  {
    var after := AnchorAfter(anchor, revision, pending, workbook, workbookId);
    if anchor.known {
      SerializedReadsBack(anchor, workbookId);
    }
    AnchorIsStorableIff(anchor, revision, pending, workbook, workbookId);
    AnchorIsWritten(anchor, revision, pending, workbook, workbookId);
    WrittenIsWellFormed(anchor, AnchorOptions(revision, pending, workbook), workbookId);
  }

  /** The excluded anchor: a base above 1 and no revision is storable, and a queued first upload makes it unstorable. */
  lemma UnnumberedBaseIsLost(session: Session, kept: Json, base: int, workbook: Json, workbookId: string)
    requires AsWorkbook(kept, workbookId).Some? && AsWorkbook(workbook, workbookId).Some? && IsRevision(base) && base > 1
    requires session.signedIn && session.anchorReady && session.autoSyncOn && !session.conflicted
    ensures var anchor := State(true, None, false, false, None, Some(Base(base, kept)));
            && Storable(anchor, workbookId)
            && Decide(session, anchor, None, AutoSync.Unset) == Upload(None)
            && !Storable(AnchorAfter(anchor, 1, true, workbook, workbookId), workbookId)
  {
    var anchor := State(true, None, false, false, None, Some(Base(base, kept)));
    SerializedReadsBack(anchor, workbookId);
    FirstAttemptStaysStorableIff(session, anchor, None, 1, true, workbook, workbookId);
  }

  /** What is written when a conflict is found; without a server workbook it names no revision. */
  function ConflictOptions(revision: Option<int>): map<string, Json> {
    map["revision" := if revision.Some? then Number(revision.value) else Null, "conflict" := Bool(true)]
  }

  /**
   Where such an anchor comes from: a conflict over a removed workbook drops the revision of any
   anchor and keeps its base, and that is storable. When a queued upload then settles the conflict,
   the anchor stays storable exactly when there was no base or the new revision is not below it.
   */
  lemma ConflictLeavesUnnumberedBase(previous: State, revision: int, workbook: Json, workbookId: string)
    requires WellFormed(previous, workbookId) && IsRevision(revision) && AsWorkbook(workbook, workbookId).Some?
    ensures var conflicted := Written(previous, ConflictOptions(None), workbookId);
            && conflicted.conflict && conflicted.revision.None? && conflicted.base == previous.base
            && Storable(conflicted, workbookId)
            && (Storable(AnchorAfter(conflicted, revision, true, workbook, workbookId), workbookId)
                <==> previous.base.None? || previous.base.value.revision <= revision)
  {
    var conflicted := Written(previous, ConflictOptions(None), workbookId);
    WrittenIsWellFormed(previous, ConflictOptions(None), workbookId);
    WriterKeepsWhatIsNotGiven(previous, ConflictOptions(None), workbookId);
    SerializedReadsBack(conflicted, workbookId);
    AnchorIsStorableIff(conflicted, revision, true, workbook, workbookId);
    AnchorIsWritten(conflicted, revision, true, workbook, workbookId);
    WrittenIsWellFormed(conflicted, AnchorOptions(revision, true, workbook), workbookId);
  }

  // ----- The step in place -----

  class Attempt {
    /** The stored anchor of this workbook, and the entry's expected revision. */
    var anchor: State
    var base: AutoSync.Base

    constructor (anchor: State, base: AutoSync.Base)
      ensures this.anchor == anchor && this.base == base
    {
      this.anchor, this.base := anchor, base;
    }

    /** Checks, fixes the base once, uploads, and records what came back. */
    method Perform(session: Session, listed: Option<Listing>, workbook: Json, workbookId: string, reply: Reply, anchorSaved: bool)
      returns (outcome: Outcome)
      requires WellFormed(anchor, workbookId)
      modifies this
      ensures WellFormed(anchor, workbookId)
      ensures var decision := Decide(session, old(anchor), listed, old(base));
              && (!decision.Upload? ==> base == old(base) && anchor == old(anchor) && !outcome.Synced?)
              && (decision.Upload? && old(base).Fixed? ==> base == old(base))
              && (decision.Upload? && old(base).Unset? ==> base.Fixed? && Expected(old(anchor), base) == decision.expected)
              && (decision.Refuse? ==> outcome == Refused(decision.refusal, false))
              && (decision.Reconcile? || (decision.Upload? && reply.Conflicted?) <==> outcome.Reconciling?)
      ensures outcome.Synced? ==>
                && reply == Replied(false, Some(outcome.revision), outcome.pending) && anchorSaved
                && anchor == AnchorAfter(old(anchor), outcome.revision, outcome.pending, workbook, workbookId)
      ensures anchor != old(anchor) ==> outcome.Synced? || outcome == Refused(AnchorNotSaved, false)
    {
      var decision := Decide(session, anchor, listed, base);
      match decision {
        case Refuse(refusal) =>
          return Refused(refusal, false);
        case Reconcile =>
          return Reconciling;
        case Upload(expected) =>
          if base.Unset? {
            base := AutoSync.Fixed(if expected.Some? then Some(expected.value) else None);
          }
      }
      match reply {
        case Conflicted =>
          return Reconciling;
        case Failed(retryable) =>
          return Refused(UploadFailed, retryable);
        case Replied(foreignId, revision, pending) =>
          if foreignId {
            return Refused(IdentityMismatch, false);
          }
          if revision.None? || !IsRevision(revision.value) {
            return Refused(RevisionMissing, true);
          }
          WrittenIsWellFormed(anchor, AnchorOptions(revision.value, pending, workbook), workbookId);
          anchor := AnchorAfter(anchor, revision.value, pending, workbook, workbookId);
          if !anchorSaved {
            return Refused(AnchorNotSaved, false);
          }
          return Synced(revision.value, pending);
      }
    }
  }
}
