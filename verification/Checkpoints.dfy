/**
 Checkpointed plans and rollbacks against one workbook: the calls, the checkpoints they leave
 and the idempotency records that make a retried call replay its first answer.

 Identities, users and keys are taken to be trimmed already, and a request fingerprint is the
 plan itself.
 */
module Checkpoints {
  import opened Options
  import opened WorkbookBook
  import opened ActionExecutor
  import opened Rollback

  datatype CheckpointStatus = AllApplied | PartlyApplied | NoneApplied | PartlyRolledBack | AllRolledBack | InConflict

  datatype Checkpoint = Checkpoint(id: string, changes: seq<Change>, status: CheckpointStatus)

  datatype IdempotencyRecord = IdempotencyRecord(user: string, key: string, plan: seq<PlannedAction>, checkpointId: string)

  datatype Ledger = Ledger(id: string, book: Book, checkpoints: seq<Checkpoint>, records: seq<IdempotencyRecord>)

  datatype Caller = Caller(user: string, key: string, needsKey: bool)

  datatype Mode = Mode(checkpointedApply: bool, dryRun: bool, maxActions: int)

  /** A call, with the checkpoint identity it would generate. */
  datatype Call = Call(workbookId: string, caller: Caller, mode: Mode, plan: seq<PlannedAction>, newCheckpointId: string)

  datatype RollbackCall = RollbackCall(checkpointId: string, selection: Selection, force: bool)

  datatype Refusal = WorkbookNotFound | KeyRequired | ApplyDisabled | TooManyActions | KeyReused

  datatype Reply =
    | Refused(refusal: Refusal)
    | Replayed(checkpointId: string, replayed: CheckpointStatus)
    | DryRun(dryChanges: seq<Change>)
    | Executed(checkpointId: string, changes: seq<Change>)
    | Thrown

  datatype RollbackReply = CheckpointMissing | Conflicted(conflicts: seq<Conflict>) | Undone(status: CheckpointStatus)

  // ----- Lookups -----

  function CheckpointIndex(checkpoints: seq<Checkpoint>, id: string): (r: Option<nat>)
    ensures r.Some? ==> r.value < |checkpoints| && checkpoints[r.value].id == id
    ensures r.None? <==> forall i :: 0 <= i < |checkpoints| ==> checkpoints[i].id != id
    decreases |checkpoints|
  {
    if checkpoints == [] then None
    else if checkpoints[0].id == id then Some(0)
    else
      var rest := CheckpointIndex(checkpoints[1..], id);
      if rest.Some? then Some(rest.value + 1) else None
  }

  function RecordIndex(records: seq<IdempotencyRecord>, user: string, key: string): (r: Option<nat>)
    ensures r.Some? ==> r.value < |records| && records[r.value].user == user && records[r.value].key == key
    ensures r.Some? ==> forall i :: 0 <= i < r.value ==> !(records[i].user == user && records[i].key == key)
    ensures r.None? <==> forall i :: 0 <= i < |records| ==> !(records[i].user == user && records[i].key == key)
    decreases |records|
  {
    if records == [] then None
    else if records[0].user == user && records[0].key == key then Some(0)
    else
      var rest := RecordIndex(records[1..], user, key);
      if rest.Some? then Some(rest.value + 1) else None
  }

  /** The record that answers for a user and key; an empty key never has one. */
  function FindRecord(l: Ledger, user: string, key: string): Option<IdempotencyRecord> {
    var i := if key == "" then None else RecordIndex(l.records, user, key);
    if i.Some? then Some(l.records[i.value]) else None
  }

  function FindCheckpoint(l: Ledger, id: string): Option<Checkpoint> {
    var i := CheckpointIndex(l.checkpoints, id);
    if i.Some? then Some(l.checkpoints[i.value]) else None
  }

  function PutCheckpoint(checkpoints: seq<Checkpoint>, c: Checkpoint): seq<Checkpoint> {
    var i := CheckpointIndex(checkpoints, c.id);
    if i.Some? then checkpoints[i.value := c] else checkpoints + [c]
  }

  function PutRecord(records: seq<IdempotencyRecord>, r: IdempotencyRecord): seq<IdempotencyRecord> {
    var i := RecordIndex(records, r.user, r.key);
    if r.key == "" then records
    else if i.Some? then records[i.value := r]
    else records + [r]
  }

  // ----- Executing a plan -----

  function UserOf(call: Call): string {
    if call.caller.user == "" then "unknown" else call.caller.user
  }

  function ActionLimit(maxActions: int): int {
    if maxActions == 0 then 25 else if maxActions < 1 then 1 else maxActions
  }

  function Preflight(l: Ledger, call: Call): Option<Refusal> {
    if l.id != call.workbookId then Some(WorkbookNotFound)
    else if call.caller.needsKey && call.caller.key == "" then Some(KeyRequired)
    else if !call.mode.checkpointedApply then Some(ApplyDisabled)
    else if |call.plan| > ActionLimit(call.mode.maxActions) then Some(TooManyActions)
    else None
  }

  predicate AnyIn(changes: seq<Change>, status: Status) {
    exists i :: 0 <= i < |changes| && changes[i].status == status
  }

  function StatusOf(changes: seq<Change>): CheckpointStatus {
    if !AnyIn(changes, Applied) then NoneApplied
    else if AnyIn(changes, Blocked) then PartlyApplied
    else AllApplied
  }

  predicate SafeIdChar(c: char) {
    'A' <= c <= 'Z' || 'a' <= c <= 'z' || '0' <= c <= '9' || c == '.' || c == '_' || c == ':' || c == '-'
  }

  predicate SafeCheckpointId(id: string) {
    1 <= |id| <= 128 && forall i :: 0 <= i < |id| ==> SafeIdChar(id[i])
  }

  /** What the checkpoint store demands; anything else makes it throw. */
  predicate Acceptable(l: Ledger, checkpointId: string, changes: seq<Change>) {
    && l.id != ""
    && SafeCheckpointId(checkpointId)
    && forall i :: 0 <= i < |changes| ==> changes[i].key.id != ""
  }

  function RunPlan(l: Ledger, env: Env, call: Call): (Book, seq<Change>) {
    ApplyAll(l.book, env, Flatten(call.plan), 0)
  }

  function Stored(l: Ledger, call: Call, end: Book, changes: seq<Change>): Ledger {
    l.(book := end,
       checkpoints := PutCheckpoint(l.checkpoints, Checkpoint(call.newCheckpointId, changes, StatusOf(changes))),
       records := PutRecord(l.records, IdempotencyRecord(UserOf(call), call.caller.key, call.plan, call.newCheckpointId)))
  }

  /** The answer given without executing anything, if there is one. */
  function Answered(l: Ledger, call: Call): Option<Reply> {
    var refusal := Preflight(l, call);
    var record := FindRecord(l, UserOf(call), call.caller.key);
    if refusal.Some? then Some(Refused(refusal.value))
    else if record.None? then None
    else if record.value.plan != call.plan then Some(Refused(KeyReused))
    else
      var checkpoint := FindCheckpoint(l, record.value.checkpointId);
      if checkpoint.Some? then Some(Replayed(checkpoint.value.id, checkpoint.value.status)) else None
  }

  function Execute(l: Ledger, env: Env, call: Call): (Ledger, Reply) {
    var answer := Answered(l, call);
    var (end, changes) := RunPlan(l, env, call);
    if answer.Some? then (l, answer.value)
    else if call.mode.dryRun then (l, DryRun(changes))
    // The store rejects the checkpoint only after the plan has been applied.
    else if !Acceptable(l, call.newCheckpointId, changes) then (l.(book := end), Thrown)
    else (Stored(l, call, end, changes), Executed(call.newCheckpointId, changes))
  }

  // ----- Rolling back -----

  function RollBack(l: Ledger, r: RollbackCall): (Ledger, RollbackReply) {
    var i := CheckpointIndex(l.checkpoints, r.checkpointId);
    if i.None? then (l, CheckpointMissing)
    else
      var c := l.checkpoints[i.value];
      var conflicts := Preview(l.book, c.changes, r.selection);
      if conflicts != [] && !r.force then
        (l.(checkpoints := l.checkpoints[i.value := c.(status := InConflict)]), Conflicted(conflicts))
      else
        var changes := MarkUndone(c.changes, r.selection);
        var status := if AnyIn(changes, Applied) then PartlyRolledBack else AllRolledBack;
        (l.(book := UndoAll(l.book, c.changes, r.selection),
            checkpoints := l.checkpoints[i.value := Checkpoint(c.id, changes, status)]),
         Undone(status))
  }

  // ----- Runs -----

  datatype Request = Plan(env: Env, call: Call) | Roll(rollback: RollbackCall)

  function Step(l: Ledger, r: Request): Ledger {
    match r
    case Plan(env, call) => Execute(l, env, call).0
    case Roll(rollback) => RollBack(l, rollback).0
  }

  function Run(l: Ledger, requests: seq<Request>): Ledger
    decreases |requests|
  {
    if requests == [] then l else Run(Step(l, requests[0]), requests[1..])
  }

  // ----- At most once -----

  /** Every idempotency record names a checkpoint that is still stored. */
  ghost predicate Backed(l: Ledger) {
    forall i :: 0 <= i < |l.records| ==> CheckpointIndex(l.checkpoints, l.records[i].checkpointId).Some?
  }

  predicate IsFor(r: Request, user: string, key: string) {
    r.Plan? && UserOf(r.call) == user && r.call.caller.key == key
  }

  /** Whether the call runs its plan on the live workbook. */
  predicate Runs(l: Ledger, call: Call) {
    Answered(l, call).None? && !call.mode.dryRun
  }

  lemma PutCheckpointKeeps(checkpoints: seq<Checkpoint>, c: Checkpoint, id: string)
    ensures CheckpointIndex(PutCheckpoint(checkpoints, c), id).Some?
       <==> CheckpointIndex(checkpoints, id).Some? || id == c.id
  {
    var after := PutCheckpoint(checkpoints, c);
    var i := CheckpointIndex(checkpoints, c.id);
    if i.Some? {
      assert forall j :: 0 <= j < |after| ==> after[j].id == checkpoints[j].id;
    } else {
      assert after[|checkpoints|] == c;
      assert forall j :: 0 <= j < |checkpoints| ==> after[j] == checkpoints[j];
    }
  }

  lemma UpdateKeepsCheckpoints(checkpoints: seq<Checkpoint>, i: nat, c: Checkpoint, id: string)
    requires i < |checkpoints| && checkpoints[i].id == c.id
    ensures CheckpointIndex(checkpoints[i := c], id).Some? <==> CheckpointIndex(checkpoints, id).Some?
  {
    assert forall j :: 0 <= j < |checkpoints| ==> checkpoints[i := c][j].id == checkpoints[j].id;
  }

  predicate Answers(r: IdempotencyRecord, user: string, key: string) {
    r.user == user && r.key == key
  }

  lemma RecordIndexIs(records: seq<IdempotencyRecord>, user: string, key: string, i: nat)
    requires i < |records| && Answers(records[i], user, key)
    requires forall j :: 0 <= j < i ==> !Answers(records[j], user, key)
    ensures RecordIndex(records, user, key) == Some(i)
  {
    var r := RecordIndex(records, user, key);
    assert r.Some? && Answers(records[r.value], user, key);
  }

  /** Two lists whose records answer alike, position by position, as far as the first list goes. */
  lemma RecordIndexAgrees(records: seq<IdempotencyRecord>, later: seq<IdempotencyRecord>, user: string, key: string)
    requires |records| <= |later|
    requires forall k :: 0 <= k < |records| ==> (Answers(later[k], user, key) <==> Answers(records[k], user, key))
    requires forall k :: |records| <= k < |later| ==> !Answers(later[k], user, key)
    ensures RecordIndex(later, user, key) == RecordIndex(records, user, key)
  {
    var i := RecordIndex(records, user, key);
    if i.Some? {
      assert Answers(records[i.value], user, key);
      forall j | 0 <= j < i.value ensures !Answers(later[j], user, key) {
        assert !Answers(records[j], user, key);
      }
      RecordIndexIs(later, user, key, i.value);
    } else {
      forall j | 0 <= j < |later| ensures !Answers(later[j], user, key) {
        assert j < |records| ==> !Answers(records[j], user, key);
      }
    }
  }

  lemma PutRecordKeeps(records: seq<IdempotencyRecord>, r: IdempotencyRecord, user: string, key: string)
    requires !Answers(r, user, key)
    ensures RecordIndex(PutRecord(records, r), user, key) == RecordIndex(records, user, key)
    ensures RecordIndex(records, user, key).Some? ==>
              var i := RecordIndex(records, user, key).value;
              i < |PutRecord(records, r)| && PutRecord(records, r)[i] == records[i]
  {
    var later := PutRecord(records, r);
    forall k | 0 <= k < |records| ensures Answers(later[k], user, key) <==> Answers(records[k], user, key) {
      assert later[k] == records[k] || (later[k] == r && records[k].user == r.user && records[k].key == r.key);
    }
    RecordIndexAgrees(records, later, user, key);
  }

  lemma PutRecordFinds(records: seq<IdempotencyRecord>, r: IdempotencyRecord)
    requires r.key != ""
    ensures RecordIndex(PutRecord(records, r), r.user, r.key).Some?
    ensures PutRecord(records, r)[RecordIndex(PutRecord(records, r), r.user, r.key).value] == r
  {
    var after := PutRecord(records, r);
    var i := RecordIndex(records, r.user, r.key);
    var at := if i.Some? then i.value else |records|;
    assert after[at] == r;
    assert forall k :: 0 <= k < at ==> after[k] == records[k];
  }

  lemma StoredKeepsBacked(l: Ledger, call: Call, end: Book, changes: seq<Change>)
    requires Backed(l)
    ensures Backed(Stored(l, call, end, changes))
  {
    var l' := Stored(l, call, end, changes);
    var c := Checkpoint(call.newCheckpointId, changes, StatusOf(changes));
    forall i | 0 <= i < |l'.records| ensures CheckpointIndex(l'.checkpoints, l'.records[i].checkpointId).Some? {
      PutCheckpointKeeps(l.checkpoints, c, l'.records[i].checkpointId);
    }
  }

  lemma StepKeepsBacked(l: Ledger, r: Request)
    requires Backed(l)
    ensures Backed(Step(l, r))
  {
    match r
    case Plan(env, call) =>
      var (end, changes) := RunPlan(l, env, call);
      StoredKeepsBacked(l, call, end, changes);
    case Roll(rollback) =>
      var i := CheckpointIndex(l.checkpoints, rollback.checkpointId);
      var l' := Step(l, r);
      forall k | 0 <= k < |l'.records| ensures CheckpointIndex(l'.checkpoints, l'.records[k].checkpointId).Some? {
        if i.Some? {
          UpdateKeepsCheckpoints(l.checkpoints, i.value, l'.checkpoints[i.value], l.records[k].checkpointId);
        }
      }
  }

  /**
   A call that runs its plan leaves a record of itself, and would not run again, exactly when it
   carries a key and the store accepts its checkpoint. Otherwise the same call runs once more.
   */
  lemma ExecutionIsRememberedIff(l: Ledger, env: Env, call: Call)
    requires Backed(l) && Runs(l, call)
    ensures var l' := Execute(l, env, call).0;
            var remembered := call.caller.key != "" && Acceptable(l, call.newCheckpointId, RunPlan(l, env, call).1);
            && (remembered <==> FindRecord(l', UserOf(call), call.caller.key).Some?)
            && (remembered <==> !Runs(l', call))
            && (remembered ==> Execute(l', env, call).1 == Replayed(call.newCheckpointId, StatusOf(RunPlan(l, env, call).1)))
  {
    var (end, changes) := RunPlan(l, env, call);
    var c := Checkpoint(call.newCheckpointId, changes, StatusOf(changes));
    var record := IdempotencyRecord(UserOf(call), call.caller.key, call.plan, call.newCheckpointId);
    PutCheckpointKeeps(l.checkpoints, c, c.id);
    PutCheckpointFinds(l.checkpoints, c);
    if call.caller.key != "" {
      PutRecordFinds(l.records, record);
    }
  }

  lemma PutCheckpointFinds(checkpoints: seq<Checkpoint>, c: Checkpoint)
    ensures CheckpointIndex(PutCheckpoint(checkpoints, c), c.id).Some?
    ensures PutCheckpoint(checkpoints, c)[CheckpointIndex(PutCheckpoint(checkpoints, c), c.id).value] == c
    decreases |checkpoints|
  {
    if checkpoints != [] && checkpoints[0].id != c.id {
      PutCheckpointFinds(checkpoints[1..], c);
      assert PutCheckpoint(checkpoints, c)[1..] == PutCheckpoint(checkpoints[1..], c);
    }
  }

  lemma StoredKeepsRecord(l: Ledger, call: Call, end: Book, changes: seq<Change>, user: string, key: string)
    requires FindRecord(l, user, key).Some? && !(UserOf(call) == user && call.caller.key == key)
    ensures FindRecord(Stored(l, call, end, changes), user, key) == FindRecord(l, user, key)
  {
    PutRecordKeeps(l.records, IdempotencyRecord(UserOf(call), call.caller.key, call.plan, call.newCheckpointId), user, key);
  }

  lemma RememberedIsAnswered(l: Ledger, call: Call)
    requires Backed(l) && FindRecord(l, UserOf(call), call.caller.key).Some?
    ensures Answered(l, call).Some?
  {
  }

  lemma AnsweredChangesNothing(l: Ledger, env: Env, call: Call)
    requires Answered(l, call).Some?
    ensures Execute(l, env, call).0 == l
  {
  }

  lemma RollBackKeepsRecords(l: Ledger, r: RollbackCall)
    ensures RollBack(l, r).0.records == l.records
  {
  }

  /** Once a key has its record, no request moves that record, and calls for the key leave the workbook alone. */
  lemma StepKeepsRecord(l: Ledger, r: Request, user: string, key: string)
    requires Backed(l) && FindRecord(l, user, key).Some?
    ensures FindRecord(Step(l, r), user, key) == FindRecord(l, user, key)
    ensures IsFor(r, user, key) ==> Step(l, r) == l
  {
    match r
    case Plan(env, call) =>
      if IsFor(r, user, key) {
        RememberedIsAnswered(l, call);
        AnsweredChangesNothing(l, env, call);
      } else {
        var (end, changes) := RunPlan(l, env, call);
        ExecuteCases(l, env, call);
        StoredKeepsRecord(l, call, end, changes, user, key);
      }
    case Roll(rollback) =>
      RollBackKeepsRecords(l, rollback);
  }

  lemma ExecuteCases(l: Ledger, env: Env, call: Call)
    ensures var (end, changes) := RunPlan(l, env, call);
            var l' := Execute(l, env, call).0;
            l' == l || l' == l.(book := end) || l' == Stored(l, call, end, changes)
    ensures Execute(l, env, call).1.Executed? ==>
              var (end, changes) := RunPlan(l, env, call);
              Execute(l, env, call) == (Stored(l, call, end, changes), Executed(call.newCheckpointId, changes))
  {
  }

  /** How many of a user's calls with this key change the workbook's entities. */
  ghost function Effects(l: Ledger, requests: seq<Request>, user: string, key: string): nat
    decreases |requests|
  {
    if requests == [] then 0
    else
      (if IsFor(requests[0], user, key) && Step(l, requests[0]).book != l.book then 1 else 0)
      + Effects(Step(l, requests[0]), requests[1..], user, key)
  }

  /** Of the user's calls with this key, none that runs is thrown out by the store. */
  ghost predicate NoneThrown(l: Ledger, requests: seq<Request>, user: string, key: string)
    decreases |requests|
  {
    requests == [] ||
    (&& (IsFor(requests[0], user, key) && Runs(l, requests[0].call) ==>
           Acceptable(l, requests[0].call.newCheckpointId, RunPlan(l, requests[0].env, requests[0].call).1))
     && NoneThrown(Step(l, requests[0]), requests[1..], user, key))
  }

  lemma {:induction false} RememberedHasNoEffects(l: Ledger, requests: seq<Request>, user: string, key: string)
    requires Backed(l) && FindRecord(l, user, key).Some?
    ensures Effects(l, requests, user, key) == 0
    ensures FindRecord(Run(l, requests), user, key) == FindRecord(l, user, key)
    decreases |requests|
  {
    if requests != [] {
      StepKeepsBacked(l, requests[0]);
      StepKeepsRecord(l, requests[0], user, key);
      RememberedHasNoEffects(Step(l, requests[0]), requests[1..], user, key);
    }
  }

  lemma {:induction false} RunKeepsBacked(l: Ledger, requests: seq<Request>)
    requires Backed(l)
    ensures Backed(Run(l, requests)) && Run(l, requests).id == l.id
    decreases |requests|
  {
    if requests != [] {
      StepKeepsBacked(l, requests[0]);
      StepKeepsId(l, requests[0]);
      RunKeepsBacked(Step(l, requests[0]), requests[1..]);
    }
  }

  lemma StepKeepsId(l: Ledger, r: Request)
    ensures Step(l, r).id == l.id
  {
    match r
    case Plan(env, call) => ExecuteCases(l, env, call);
    case Roll(rollback) =>
  }

  lemma RememberedReply(l: Ledger, env: Env, call: Call)
    requires Backed(l) && FindRecord(l, UserOf(call), call.caller.key).Some?
    ensures var record := FindRecord(l, UserOf(call), call.caller.key).value;
            var (l', reply) := Execute(l, env, call);
            && l' == l
            && (reply.Refused? || (reply.Replayed? && reply.checkpointId == record.checkpointId))
            && (reply.Replayed? <==> Preflight(l, call).None? && record.plan == call.plan)
  {
    RememberedIsAnswered(l, call);
  }

  /**
   After any run of calls and rollbacks, a call of a remembered key changes nothing: it replays the
   checkpoint its record names, exactly when it passes the preflight with the recorded plan, and is
   refused otherwise.
   */
  lemma LaterCallsReplayOrAreRefused(l: Ledger, requests: seq<Request>, env: Env, call: Call)
    requires Backed(l) && FindRecord(l, UserOf(call), call.caller.key).Some?
    ensures var record := FindRecord(l, UserOf(call), call.caller.key).value;
            var l' := Run(l, requests);
            var (l'', reply) := Execute(l', env, call);
            && l'' == l'
            && (reply.Refused? || (reply.Replayed? && reply.checkpointId == record.checkpointId))
            && (reply.Replayed? <==> Preflight(l, call).None? && record.plan == call.plan)
  {
    RunKeepsBacked(l, requests);
    RememberedHasNoEffects(l, requests, UserOf(call), call.caller.key);
    RememberedReply(Run(l, requests), env, call);
  }

  /**
   In any run of calls and rollbacks, at most one call of a user with a given non-empty key changes
   the workbook, provided the store accepts the checkpoints of that user's calls with that key.
   */
  lemma {:induction false} AtMostOnce(l: Ledger, requests: seq<Request>, user: string, key: string)
    requires Backed(l) && key != "" && NoneThrown(l, requests, user, key)
    ensures Effects(l, requests, user, key) <= 1
    decreases |requests|
  {
    if requests != [] {
      var r := requests[0];
      var l' := Step(l, r);
      StepKeepsBacked(l, r);
      if IsFor(r, user, key) && l'.book != l.book {
        ExecutionIsRememberedIff(l, r.env, r.call);
        RememberedHasNoEffects(l', requests[1..], user, key);
      } else {
        AtMostOnce(l', requests[1..], user, key);
      }
    }
  }

  /** Why the condition is there: with an empty generated identity a retried call creates its item twice. */
  lemma RejectedCheckpointRunsTwice(env: Env)
    ensures var l := Ledger("w", Book([], [], [], []), [], []);
            var call := Call("w", Caller("u", "k", true), Mode(true, false, 0), [PlannedAction("a", CreateRecurring("", "Rent", 100))], "cp");
            Effects(l, [Plan(env, call), Plan(env, call)], "u", "k") == 2
  {
    var book := Book([], [], [], []);
    var l := Ledger("w", book, [], []);
    var action := PlannedAction("a", CreateRecurring("", "Rent", 100));
    var call := Call("w", Caller("u", "k", true), Mode(true, false, 0), [action], "cp");
    var r := Plan(env, call);
    assert Flatten([action]) == [action];
    EmptyIdentityIsRejected(l, env, call, action);
    var l1 := Step(l, r);
    EmptyIdentityIsRejected(l1, env, call, action);
    var l2 := Step(l1, r);
    assert [r, r][1..] == [r] && [r][1..] == [];
    assert Effects(l2, [], "u", "k") == 0;
    assert Effects(l1, [r], "u", "k") == 1;
  }

  lemma EmptyIdentityIsRejected(l: Ledger, env: Env, call: Call, action: PlannedAction)
    requires l.id == call.workbookId && l.records == [] && call.mode == Mode(true, false, 0) && call.caller.key != ""
    requires action.action == CreateRecurring("", "Rent", 100) && call.plan == [action] && Flatten(call.plan) == [action]
    ensures var l' := Step(l, Plan(env, call));
            |l'.book.recurringItems| == |l.book.recurringItems| + 1 && l' == l.(book := l'.book)
  {
    var d := Decide(l.book, env, action.action, Fallback(action));
    assert ApplyOne(l.book, env, action) == (Perform(l.book, d), d);
    ApplyAllStep(l.book, env, call.plan, 0, 0);
    assert call.plan[1..] == [] && call.plan[0..] == call.plan;
    assert ApplyAll(Perform(l.book, d), env, [], 1) == (Perform(l.book, d), []);
    assert [Record(d, 0)] + [] == [Record(d, 0)];
    assert call.plan[0] == action;
    assert RunPlan(l, env, call) == (Perform(l.book, d), [Record(d, 0)]);
    assert [Record(d, 0)][0].key.id == "";
    assert Answered(l, call).None?;
  }

  // ----- Rolling back what a call did -----

  /** The identities a plan creates are new. */
  ghost predicate CreatesNew(l: Ledger, env: Env, call: Call) {
    UniqueBook(l.book) && AllFresh(l.book, env, Flatten(call.plan))
  }

  /** A rollback of everything in a freshly stored checkpoint: its three outcomes. */
  lemma RollBackOfStored(l: Ledger, call: Call, end: Book, changes: seq<Change>, force: bool)
    ensures var (l2, reply) := RollBack(Stored(l, call, end, changes), RollbackCall(call.newCheckpointId, None, force));
            if Preview(end, changes, None) == [] || force
            then l2.book == UndoAll(end, changes, None) && reply == Undone(AllRolledBack)
            else l2.book == end && reply == Conflicted(Preview(end, changes, None))
  {
    PutCheckpointFinds(l.checkpoints, Checkpoint(call.newCheckpointId, changes, StatusOf(changes)));
  }

  /**
   A forced rollback of a call that just executed leaves nothing applied, and restores every entity
   exactly when the last change of each found it as it was before the call.
   */
  lemma RollbackUndoesCallIff(l: Ledger, env: Env, call: Call)
    requires CreatesNew(l, env, call) && Execute(l, env, call).1.Executed?
    ensures var l1 := Execute(l, env, call).0;
            var (l2, reply) := RollBack(l1, RollbackCall(call.newCheckpointId, None, true));
            && reply == Undone(AllRolledBack)
            && (SameEntities(l2.book, l.book) <==> LastChangesFoundStart(l.book, RunPlan(l, env, call).1))
  {
    var (end, changes) := RunPlan(l, env, call);
    ExecuteCases(l, env, call);
    RollBackOfStored(l, call, end, changes, true);
    ForcedRollbackInvertsIff(l.book, env, Flatten(call.plan), 0);
  }

  /**
   A safe one goes through exactly when, for every applied change, the last change of its entity is
   reversible and left what that change left; it then restores under the same condition, and
   otherwise changes no entity.
   */
  lemma SafeRollbackOfCallIff(l: Ledger, env: Env, call: Call)
    requires CreatesNew(l, env, call) && Execute(l, env, call).1.Executed?
    ensures var l1 := Execute(l, env, call).0;
            var (l2, reply) := RollBack(l1, RollbackCall(call.newCheckpointId, None, false));
            var changes := RunPlan(l, env, call).1;
            && (reply.Undone? <==> AllAcceptable(changes))
            && (reply.Undone? ==> (SameEntities(l2.book, l.book) <==> LastChangesFoundStart(l.book, changes)))
            && (!reply.Undone? ==> l2.book == l1.book)
  {
    var (end, changes) := RunPlan(l, env, call);
    ExecuteCases(l, env, call);
    RollBackOfStored(l, call, end, changes, false);
    SafeRollbackAcceptsIff(l.book, env, Flatten(call.plan), 0);
    ForcedRollbackInvertsIff(l.book, env, Flatten(call.plan), 0);
  }

  /** Of a call that changed distinct entities: a safe rollback goes through exactly when every applied change is reversible, and restores. */
  lemma DistinctCallIsUndone(l: Ledger, env: Env, call: Call)
    requires CreatesNew(l, env, call) && Execute(l, env, call).1.Executed?
    requires DistinctKeys(RunPlan(l, env, call).1)
    ensures var l1 := Execute(l, env, call).0;
            var (l2, reply) := RollBack(l1, RollbackCall(call.newCheckpointId, None, false));
            var changes := RunPlan(l, env, call).1;
            && (reply.Undone? <==> forall i :: 0 <= i < |changes| && changes[i].status.Applied? ==> CanUndoSafely(changes[i]))
            && (reply.Undone? ==> SameEntities(l2.book, l.book))
  {
    SafeRollbackOfCallIff(l, env, call);
    DistinctChangesFoundStart(l.book, env, Flatten(call.plan), 0);
    ExecutionRecordsFields(l.book, env, Flatten(call.plan), 0);
    DistinctAcceptableIff(RunPlan(l, env, call).1);
  }

  // ----- Double entry over runs -----

  ghost predicate LedgerBalanced(l: Ledger) {
    && BookBalanced(l.book)
    && forall c :: c in l.checkpoints ==> ChangesBalanced(c.changes)
  }

  ghost predicate NamesAllCategories(requests: seq<Request>) {
    forall i :: 0 <= i < |requests| && requests[i].Plan? ==> NamesCategories(requests[i].call.plan)
  }

  lemma {:induction false} FlattenNamesCategories(plan: seq<PlannedAction>)
    requires NamesCategories(plan)
    ensures NamesCategories(Flatten(plan))
    decreases |plan|
  {
    if plan != [] {
      assert plan[0] in plan;
      FlattenNamesCategories(plan[1..]);
    }
  }

  lemma MarkUndoneKeepsBalance(changes: seq<Change>, selection: Selection)
    requires ChangesBalanced(changes)
    ensures ChangesBalanced(MarkUndone(changes, selection))
  {
    forall c | c in MarkUndone(changes, selection) ensures ChangeBalanced(c) {
      var i :| 0 <= i < |changes| && MarkUndone(changes, selection)[i] == c;
      assert changes[i] in changes;
    }
  }

  lemma RollBackKeepsBalance(l: Ledger, r: RollbackCall)
    requires LedgerBalanced(l)
    ensures LedgerBalanced(RollBack(l, r).0)
  {
    var i := CheckpointIndex(l.checkpoints, r.checkpointId);
    if i.Some? {
      var c := l.checkpoints[i.value];
      assert c in l.checkpoints;
      UndoAllKeepsBalance(l.book, c.changes, r.selection);
      MarkUndoneKeepsBalance(c.changes, r.selection);
    }
  }

  lemma StepKeepsBalance(l: Ledger, r: Request)
    requires LedgerBalanced(l) && NamesAllCategories([r])
    ensures LedgerBalanced(Step(l, r))
  {
    match r
    case Plan(env, call) =>
      assert [r][0] == r;
      FlattenNamesCategories(call.plan);
      ApplyAllKeepsBalance(l.book, env, Flatten(call.plan), 0);
      ExecuteCases(l, env, call);
    case Roll(rollback) =>
      RollBackKeepsBalance(l, rollback);
  }

  /** Every transaction's posting lines stay balanced over any run of plans and rollbacks. */
  lemma {:induction false} RunKeepsBalance(l: Ledger, requests: seq<Request>)
    requires LedgerBalanced(l) && NamesAllCategories(requests)
    ensures LedgerBalanced(Run(l, requests))
    decreases |requests|
  {
    if requests != [] {
      StepKeepsBalance(l, requests[0]);
      RunKeepsBalance(Step(l, requests[0]), requests[1..]);
    }
  }

  // ----- Positive amounts over runs -----

  ghost predicate LedgerPositive(l: Ledger) {
    && BookPositive(l.book)
    && forall c :: c in l.checkpoints ==> ChangesPositive(c.changes)
  }

  lemma MarkUndoneKeepsPositive(changes: seq<Change>, selection: Selection)
    requires ChangesPositive(changes)
    ensures ChangesPositive(MarkUndone(changes, selection))
  {
    var marked := MarkUndone(changes, selection);
    forall c | c in marked && c.key.kind.Transaction? && c.before.Some? ensures PositiveAmount(c.before.value.fields) {
      var i :| 0 <= i < |changes| && marked[i] == c;
      assert changes[i] in changes;
    }
  }

  lemma RollBackKeepsPositive(l: Ledger, r: RollbackCall)
    requires LedgerPositive(l)
    ensures LedgerPositive(RollBack(l, r).0)
  {
    var i := CheckpointIndex(l.checkpoints, r.checkpointId);
    if i.Some? {
      var c := l.checkpoints[i.value];
      assert c in l.checkpoints;
      UndoAllKeepsPositive(l.book, c.changes, r.selection);
      MarkUndoneKeepsPositive(c.changes, r.selection);
    }
  }

  lemma StepKeepsPositive(l: Ledger, r: Request)
    requires LedgerPositive(l)
    ensures LedgerPositive(Step(l, r))
  {
    match r
    case Plan(env, call) =>
      ApplyAllKeepsPositive(l.book, env, Flatten(call.plan), 0);
      ExecuteCases(l, env, call);
    case Roll(rollback) =>
      RollBackKeepsPositive(l, rollback);
  }

  /** If every amount is positive, it stays so over any run of plans and rollbacks. */
  lemma {:induction false} RunKeepsPositive(l: Ledger, requests: seq<Request>)
    requires LedgerPositive(l)
    ensures LedgerPositive(Run(l, requests))
    decreases |requests|
  {
    if requests != [] {
      StepKeepsPositive(l, requests[0]);
      RunKeepsPositive(Step(l, requests[0]), requests[1..]);
    }
  }
}
