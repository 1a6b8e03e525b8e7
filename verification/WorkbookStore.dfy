/**
 The workbook object itself: the executor and the rollback change its lists in place, one entity
 at a time. Every method is proved against the functions of `ActionExecutor`, `Rollback` and
 `Checkpoints`, so their theorems hold of this object.
 */
module WorkbookStore {
  import opened Options
  import opened WorkbookBook
  import opened ActionExecutor
  import opened Rollback
  import opened Checkpoints

  /** What the loop over a plan still owes: the rest of the actions, behind the changes collected so far. */
  ghost function Remaining(b: Book, env: Env, actions: seq<PlannedAction>, i: nat, done: seq<Change>): (Book, seq<Change>)
    requires i <= |actions|
  {
    var (end, rest) := ApplyAll(b, env, actions[i..], i);
    (end, done + rest)
  }

  lemma TakeTurn(b: Book, env: Env, actions: seq<PlannedAction>, i: nat, done: seq<Change>)
    requires i < |actions|
    ensures var (b', d) := ApplyOne(b, env, actions[i]);
            Remaining(b, env, actions, i, done) == Remaining(b', env, actions, i + 1, done + [Record(d, i)])
  {
    ApplyAllStep(b, env, actions, i, i);
    var (b', d) := ApplyOne(b, env, actions[i]);
    var rest := ApplyAll(b', env, actions[i + 1..], i + 1).1;
    assert done + ([Record(d, i)] + rest) == (done + [Record(d, i)]) + rest;
  }

  lemma NoTurnLeft(b: Book, env: Env, actions: seq<PlannedAction>, done: seq<Change>)
    ensures Remaining(b, env, actions, |actions|, done) == (b, done)
    ensures Remaining(b, env, actions, 0, []) == ApplyAll(b, env, actions, 0)
  {
    assert done + [] == done;
    assert actions[0..] == actions;
    var all := ApplyAll(b, env, actions, 0).1;
    assert [] + all == all;
  }

  class Workbook {
    var id: string
    var transactions: seq<Entity>
    var recurringItems: seq<Entity>
    var categories: seq<Entity>
    var budgets: seq<Entity>
    var checkpoints: seq<Checkpoint>
    var records: seq<IdempotencyRecord>

    /** The entities alone. */
    function Entities(): Book
      reads this
    {
      Book(transactions, recurringItems, categories, budgets)
    }

    function Value(): Ledger
      reads this
    {
      Ledger(id, Entities(), checkpoints, records)
    }

    constructor (l: Ledger)
      ensures Value() == l
    {
      id := l.id;
      transactions, recurringItems := l.book.transactions, l.book.recurringItems;
      categories, budgets := l.book.categories, l.book.budgets;
      checkpoints, records := l.checkpoints, l.records;
    }

    method SetList(kind: Kind, list: seq<Entity>)
      modifies `transactions, `recurringItems, `categories, `budgets
      ensures Entities() == WithList(old(Entities()), kind, list)
    {
      match kind {
        case Transaction => transactions := list;
        case RecurringItem => recurringItems := list;
        case Category => categories := list;
        case Budget => budgets := list;
        case DraftGroup =>
      }
    }

    // ----- Executing -----

    /** One write of an applied action: push, assign over, overwrite or splice out. */
    method WriteList(d: Decision)
      requires CanWrite(ListOf(Entities(), d.key.kind), d.write)
      modifies `transactions, `recurringItems, `categories, `budgets
      ensures Entities() == Perform(old(Entities()), d)
    {
      var list := ListOf(Entities(), d.key.kind);
      match d.write {
        case NoWrite =>
        case Push(e) =>
          list := list + [e];
        case Assign(i, fields) =>
          list := list[i := Assigned(list[i], fields)];
        case Overwrite(i, e) =>
          list := list[i := e];
        case Splice(i) =>
          list := list[..i] + list[i + 1..];
      }
      SetList(d.key.kind, list);
    }

    method ApplyAction(env: Env, p: PlannedAction) returns (d: Decision)
      modifies `transactions, `recurringItems, `categories, `budgets
      ensures (Entities(), d) == ApplyOne(old(Entities()), env, p)
    {
      var (_, decision) := ApplyOne(Entities(), env, p);
      d := decision;
      WriteList(d);
    }

    /** Applies the actions in order, collecting one change for each. */
    method ApplyActions(env: Env, actions: seq<PlannedAction>) returns (changes: seq<Change>)
      modifies `transactions, `recurringItems, `categories, `budgets
      ensures (Entities(), changes) == ApplyAll(old(Entities()), env, actions, 0)
    {
      changes := [];
      var i := 0;
      NoTurnLeft(Entities(), env, actions, changes);
      while i < |actions|
        invariant 0 <= i <= |actions|
        invariant Remaining(Entities(), env, actions, i, changes) == Remaining(old(Entities()), env, actions, 0, [])
      {
        TakeTurn(Entities(), env, actions, i, changes);
        var d := ApplyAction(env, actions[i]);
        changes := changes + [Record(d, i)];
        i := i + 1;
      }
      NoTurnLeft(Entities(), env, actions, changes);
    }

    /** Overwrites the checkpoint with this identity, or appends it; throws on a malformed one. */
    method CreateCheckpoint(checkpointId: string, changes: seq<Change>) returns (ok: bool)
      modifies `checkpoints
      ensures ok == Acceptable(Value(), checkpointId, changes)
      ensures checkpoints == if ok then PutCheckpoint(old(checkpoints), Checkpoint(checkpointId, changes, StatusOf(changes))) else old(checkpoints)
    {
      ok := Acceptable(Value(), checkpointId, changes);
      if ok {
        var c := Checkpoint(checkpointId, changes, StatusOf(changes));
        var existing := CheckpointIndex(checkpoints, checkpointId);
        if existing.Some? {
          checkpoints := checkpoints[existing.value := c];
        } else {
          checkpoints := checkpoints + [c];
        }
      }
    }

    method SaveRecord(r: IdempotencyRecord)
      modifies `records
      ensures records == PutRecord(old(records), r)
    {
      if r.key != "" {
        var existing := RecordIndex(records, r.user, r.key);
        if existing.Some? {
          records := records[existing.value := r];
        } else {
          records := records + [r];
        }
      }
    }

    /** A call: answered from what is stored, tried on a copy, or run and recorded. */
    method ExecutePlan(env: Env, call: Call) returns (reply: Reply)
      modifies this
      ensures (Value(), reply) == Execute(old(Value()), env, call)
    {
      var answer := Answered(Value(), call);
      if answer.Some? {
        return answer.value;
      }
      if call.mode.dryRun {
        var copy := new Workbook(Value());
        var tried := copy.ApplyActions(env, Flatten(call.plan));
        return DryRun(tried);
      }
      var changes := ApplyActions(env, Flatten(call.plan));
      var ok := CreateCheckpoint(call.newCheckpointId, changes);
      if !ok {
        return Thrown;
      }
      SaveRecord(IdempotencyRecord(UserOf(call), call.caller.key, call.plan, call.newCheckpointId));
      return Executed(call.newCheckpointId, changes);
    }

    // ----- Rolling back -----

    method RemoveEntity(key: Key)
      modifies `transactions, `recurringItems, `categories, `budgets
      ensures Entities() == WithList(old(Entities()), key.kind, RemoveFirst(ListOf(old(Entities()), key.kind), key.id))
    {
      var list := ListOf(Entities(), key.kind);
      var index := IndexOf(list, key.id);
      if index.Some? {
        SetList(key.kind, list[..index.value] + list[index.value + 1..]);
      } else {
        SetList(key.kind, list);
      }
    }

    method RestoreEntity(key: Key, before: Option<Entity>)
      modifies `transactions, `recurringItems, `categories, `budgets
      ensures Entities() ==
              var list := ListOf(old(Entities()), key.kind);
              WithList(old(Entities()), key.kind, if before.Some? then Put(list, key.id, before.value) else RemoveFirst(list, key.id))
    {
      var list := ListOf(Entities(), key.kind);
      var index := IndexOf(list, key.id);
      if before.None? {
        RemoveEntity(key);
      } else if index.Some? {
        SetList(key.kind, list[index.value := before.value]);
      } else {
        SetList(key.kind, list + [before.value]);
      }
    }

    /** Undoes the selected changes one by one, marking each. */
    method UndoChanges(changes: seq<Change>, selection: Selection) returns (marked: seq<Change>)
      modifies `transactions, `recurringItems, `categories, `budgets
      ensures Entities() == UndoAll(old(Entities()), changes, selection)
      ensures marked == MarkUndone(changes, selection)
    {
      marked := changes;
      var i := 0;
      while i < |changes|
        invariant 0 <= i <= |changes| && |marked| == |changes|
        invariant forall j :: 0 <= j < i ==> marked[j] == MarkUndone(changes, selection)[j]
        invariant forall j :: i <= j < |changes| ==> marked[j] == changes[j]
        invariant UndoAll(Entities(), changes[i..], selection) == UndoAll(old(Entities()), changes, selection)
      {
        var c := changes[i];
        assert changes[i..][0] == c && changes[i..][1..] == changes[i + 1..];
        if IsSelected(c, selection) {
          if c.op.Create? {
            RemoveEntity(c.key);
          } else {
            RestoreEntity(c.key, c.before);
          }
          marked := marked[i := c.(status := RolledBack)];
        }
        i := i + 1;
      }
      assert marked == MarkUndone(changes, selection);
    }

    /** A rollback: refused on conflicts unless forced, otherwise undone and marked. */
    method RollBackCheckpoint(r: RollbackCall) returns (reply: RollbackReply)
      modifies this
      ensures (Value(), reply) == RollBack(old(Value()), r)
    {
      var found := CheckpointIndex(checkpoints, r.checkpointId);
      if found.None? {
        return CheckpointMissing;
      }
      var c := checkpoints[found.value];
      var conflicts := Preview(Entities(), c.changes, r.selection);
      if conflicts != [] && !r.force {
        checkpoints := checkpoints[found.value := c.(status := InConflict)];
        return Conflicted(conflicts);
      }
      var marked := UndoChanges(c.changes, r.selection);
      var status := if AnyIn(marked, Applied) then PartlyRolledBack else AllRolledBack;
      checkpoints := checkpoints[found.value := Checkpoint(c.id, marked, status)];
      return Undone(status);
    }
  }
}
