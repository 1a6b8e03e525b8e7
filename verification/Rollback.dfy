/**
 Undoing checkpointed changes: the conflict preview, the undo itself, and when the undo of a
 whole plan gives back the workbook it started from.
 */
module Rollback {
  import opened Options
  import opened WorkbookBook
  import opened ActionExecutor

  datatype Reason = EntityMissing | EntityChanged

  datatype Conflict = Conflict(changeId: nat, reason: Reason)

  /** A selection of change ids, or all of them. */
  type Selection = Option<set<nat>>

  predicate IsSelected(c: Change, selection: Selection) {
    c.status.Applied? && (selection.None? || c.changeId in selection.value)
  }

  // ----- Preview -----

  /** Fingerprints compare whole entities. */
  function Detect(c: Change, current: Option<Entity>): Option<Reason> {
    if current.None? then (if c.op.Create? then None else Some(EntityMissing))
    else if c.after.Some? && current != c.after then Some(EntityChanged)
    else None
  }

  function Preview(b: Book, changes: seq<Change>, selection: Selection): seq<Conflict>
    decreases |changes|
  {
    if changes == [] then []
    else
      var c := changes[0];
      var reason := if IsSelected(c, selection) then Detect(c, At(b, c.key)) else None;
      (if reason.Some? then [Conflict(c.changeId, reason.value)] else []) + Preview(b, changes[1..], selection)
  }

  lemma {:induction false} PreviewIsEmptyIff(b: Book, changes: seq<Change>, selection: Selection)
    ensures Preview(b, changes, selection) == []
       <==> forall i :: 0 <= i < |changes| && IsSelected(changes[i], selection) ==> Detect(changes[i], At(b, changes[i].key)).None?
    decreases |changes|
  {
    if changes != [] {
      PreviewIsEmptyIff(b, changes[1..], selection);
      assert forall i :: 0 < i < |changes| ==> changes[i] == changes[1..][i - 1];
      assert Preview(b, changes, selection) == [] ==>
          !IsSelected(changes[0], selection) || Detect(changes[0], At(b, changes[0].key)).None?;
    }
  }

  // ----- Undo -----

  /** A created entity is removed; anything else gets its recorded `before` back. */
  function Undo(b: Book, c: Change): Book {
    var list := ListOf(b, c.key.kind);
    if c.op.Create? || c.before.None? then WithList(b, c.key.kind, RemoveFirst(list, c.key.id))
    else WithList(b, c.key.kind, Put(list, c.key.id, c.before.value))
  }

  /** Undoes the selected changes in the order they were applied. */
  function UndoAll(b: Book, changes: seq<Change>, selection: Selection): Book
    decreases |changes|
  {
    if changes == [] then b
    else UndoAll(if IsSelected(changes[0], selection) then Undo(b, changes[0]) else b, changes[1..], selection)
  }

  function MarkUndone(changes: seq<Change>, selection: Selection): (r: seq<Change>)
    ensures |r| == |changes|
  {
    seq(|changes|, i requires 0 <= i < |changes| =>
          if IsSelected(changes[i], selection) then changes[i].(status := RolledBack) else changes[i])
  }

  /** What a rollback needs of a recorded change. */
  ghost predicate WellRecorded(c: Change) {
    && !c.key.kind.DraftGroup?
    && (c.op.Create? ==> c.before.None?)
    && (c.before.Some? ==> c.before.value.id == c.key.id)
  }

  ghost predicate AllWellRecorded(changes: seq<Change>) {
    forall i :: 0 <= i < |changes| && changes[i].status.Applied? ==> WellRecorded(changes[i])
  }

  ghost predicate DistinctKeys(changes: seq<Change>) {
    forall i, j :: 0 <= i < j < |changes| && changes[i].status.Applied? && changes[j].status.Applied? ==>
      changes[i].key != changes[j].key
  }

  lemma UndoSetsKey(b: Book, c: Change)
    requires UniqueBook(b) && WellRecorded(c)
    ensures SetsKey(b, Undo(b, c), c.key, c.before)
  {
    var list := ListOf(b, c.key.kind);
    assert UniqueIds(list);
    if c.op.Create? || c.before.None? {
      RemoveSets(list, c.key.id);
      ListSetsBookSets(b, c.key.kind, RemoveFirst(list, c.key.id), c.key.id, None);
    } else {
      PutSets(list, c.before.value);
      ListSetsBookSets(b, c.key.kind, Put(list, c.key.id, c.before.value), c.key.id, c.before);
    }
  }

  /** Undoing changes of two different entities commutes, so forward order is as good as reverse. */
  lemma UndoCommutes(b: Book, c: Change, d: Change)
    requires UniqueBook(b) && WellRecorded(c) && WellRecorded(d) && c.key != d.key
    ensures SameEntities(Undo(Undo(b, c), d), Undo(Undo(b, d), c))
  {
    UndoSetsKey(b, c);
    UndoSetsKey(Undo(b, c), d);
    UndoSetsKey(b, d);
    UndoSetsKey(Undo(b, d), c);
    forall key ensures At(Undo(Undo(b, c), d), key) == At(Undo(Undo(b, d), c), key) {
      if key != c.key && key != d.key {
        assert At(Undo(b, c), key) == At(Undo(b, d), key);
      }
    }
  }

  /** The last selected change of an entity. */
  function LastChange(changes: seq<Change>, selection: Selection, key: Key): (r: Option<Change>)
    ensures r.Some? ==> r.value in changes && IsSelected(r.value, selection) && r.value.key == key
    decreases |changes|
  {
    if changes == [] then None
    else
      var later := LastChange(changes[1..], selection, key);
      if later.Some? then later
      else if IsSelected(changes[0], selection) && changes[0].key == key then Some(changes[0])
      else None
  }

  lemma {:induction false} LastChangeIsNoneIff(changes: seq<Change>, selection: Selection, key: Key)
    ensures LastChange(changes, selection, key).None?
       <==> forall i :: 0 <= i < |changes| && IsSelected(changes[i], selection) ==> changes[i].key != key
    decreases |changes|
  {
    if changes != [] {
      LastChangeIsNoneIff(changes[1..], selection, key);
      assert forall i :: 0 < i < |changes| ==> changes[i] == changes[1..][i - 1];
      assert LastChange(changes, selection, key).None? ==> !(IsSelected(changes[0], selection) && changes[0].key == key);
    }
  }

  /** Where the last change stands: no selected change of its entity comes after it. */
  lemma {:induction false} LastChangeStands(changes: seq<Change>, selection: Selection, key: Key) returns (i: nat)
    requires LastChange(changes, selection, key).Some?
    ensures i < |changes| && LastChange(changes, selection, key) == Some(changes[i])
    ensures LastChange(changes[i + 1..], selection, key).None?
    decreases |changes|
  {
    if LastChange(changes[1..], selection, key).Some? {
      var j := LastChangeStands(changes[1..], selection, key);
      i := j + 1;
      assert changes[1..][j + 1..] == changes[i + 1..];
    } else {
      i := 0;
    }
  }

  /** What the undo leaves of an entity: the `before` of its last selected change. */
  function Restored(b: Book, changes: seq<Change>, selection: Selection, key: Key): Option<Entity> {
    var last := LastChange(changes, selection, key);
    if last.Some? then last.value.before else At(b, key)
  }

  lemma {:induction false} UndoLeaves(b: Book, changes: seq<Change>, selection: Selection, key: Key)
    requires UniqueBook(b) && AllWellRecorded(changes)
    ensures UniqueBook(UndoAll(b, changes, selection))
    ensures At(UndoAll(b, changes, selection), key) == Restored(b, changes, selection, key)
    decreases |changes|
  {
    if changes != [] {
      var c := changes[0];
      if IsSelected(c, selection) {
        UndoSetsKey(b, c);
      }
      UndoLeaves(if IsSelected(c, selection) then Undo(b, c) else b, changes[1..], selection, key);
    }
  }

  /** The undo leaves every entity as the last selected change of it found it, and all others alone. */
  lemma UndoAllRestores(b: Book, changes: seq<Change>, selection: Selection)
    requires UniqueBook(b) && AllWellRecorded(changes)
    ensures UniqueBook(UndoAll(b, changes, selection))
    ensures forall key :: At(UndoAll(b, changes, selection), key) == Restored(b, changes, selection, key)
  {
    UndoLeaves(b, changes, selection, Key(Transaction, ""));
    forall key ensures At(UndoAll(b, changes, selection), key) == Restored(b, changes, selection, key) {
      UndoLeaves(b, changes, selection, key);
    }
  }

  // ----- What executing a plan records -----

  /** Every entity a plan creates has a new identity when it is created. */
  ghost predicate AllFresh(b: Book, env: Env, actions: seq<PlannedAction>)
    decreases |actions|
  {
    actions == [] || (var (b', d) := ApplyOne(b, env, actions[0]); Fresh(b, d) && AllFresh(b', env, actions[1..]))
  }

  /** What an applied change left behind, before anything else touched the entity. */
  function Left(c: Change): Option<Entity> {
    Outcome(c.before, c.after)
  }

  /** What some changes have made of an entity: what the last applied one left. */
  function Held(b: Book, changes: seq<Change>, key: Key): Option<Entity> {
    var last := LastChange(changes, None, key);
    if last.Some? then Left(last.value) else At(b, key)
  }

  /** What one action did, as its change records it. */
  ghost predicate Recorded(b: Book, b': Book, c: Change) {
    if c.status.Applied? then WellRecorded(c) && c.before == At(b, c.key) && SetsKey(b, b', c.key, Left(c))
    else b' == b
  }

  lemma ActionIsRecorded(b: Book, env: Env, p: PlannedAction, next: nat)
    requires UniqueBook(b) && Fresh(b, ApplyOne(b, env, p).1)
    ensures var (b', d) := ApplyOne(b, env, p);
            Recorded(b, b', Record(d, next)) && UniqueBook(b')
  {
    var (b', d) := ApplyOne(b, env, p);
    if d.blocked {
      BlockedWritesNothing(b, d);
    } else {
      WriteSetsKey(b, d);
      DecisionIsWellRecorded(b, d, next);
    }
  }

  lemma DecisionIsWellRecorded(b: Book, d: Decision, next: nat)
    requires Sound(b, d) && !d.blocked
    ensures WellRecorded(Record(d, next))
  {
  }

  lemma HeldUnfolds(b: Book, b': Book, c: Change, rest: seq<Change>, key: Key)
    requires Recorded(b, b', c)
    ensures Held(b, [c] + rest, key) == Held(b', rest, key)
  {
    assert ([c] + rest)[1..] == rest;
  }

  /** The change found what the changes before it had made of its entity. */
  ghost predicate FoundHeld(b: Book, changes: seq<Change>, i: nat)
    requires i < |changes|
  {
    changes[i].status.Applied? ==>
      WellRecorded(changes[i]) && changes[i].before == Held(b, changes[..i], changes[i].key)
  }

  lemma LaterFoundHeld(b: Book, b': Book, c: Change, rest: seq<Change>, i: nat)
    requires Recorded(b, b', c) && i < |rest| && FoundHeld(b', rest, i)
    ensures FoundHeld(b, [c] + rest, i + 1)
  {
    HeldUnfolds(b, b', c, rest[..i], rest[i].key);
    assert ([c] + rest)[..i + 1] == [c] + rest[..i];
  }

  lemma OneMoreFoundHeld(b: Book, b': Book, c: Change, rest: seq<Change>)
    requires Recorded(b, b', c)
    requires forall i :: 0 <= i < |rest| ==> FoundHeld(b', rest, i)
    ensures forall i :: 0 <= i < |[c] + rest| ==> FoundHeld(b, [c] + rest, i)
  {
    forall i | 0 <= i < |[c] + rest| ensures FoundHeld(b, [c] + rest, i) {
      if i == 0 {
        assert LastChange(([c] + rest)[..0], None, c.key).None?;
      } else {
        LaterFoundHeld(b, b', c, rest, i - 1);
      }
    }
  }

  /** The first action of a plan, and the run of the others. */
  lemma ExecutionStep(b: Book, env: Env, actions: seq<PlannedAction>, next: nat) returns (b': Book, c: Change, rest: seq<Change>)
    requires UniqueBook(b) && AllFresh(b, env, actions) && actions != []
    ensures UniqueBook(b') && AllFresh(b', env, actions[1..]) && Recorded(b, b', c)
    ensures rest == ApplyAll(b', env, actions[1..], next + 1).1
    ensures ApplyAll(b, env, actions, next) == (ApplyAll(b', env, actions[1..], next + 1).0, [c] + rest)
  {
    var (after, d) := ApplyOne(b, env, actions[0]);
    ActionIsRecorded(b, env, actions[0], next);
    b', c, rest := after, Record(d, next), ApplyAll(after, env, actions[1..], next + 1).1;
  }

  lemma {:induction false} ExecutionHolds(b: Book, env: Env, actions: seq<PlannedAction>, next: nat, key: Key)
    requires UniqueBook(b) && AllFresh(b, env, actions)
    ensures var (end, changes) := ApplyAll(b, env, actions, next);
            UniqueBook(end) && |changes| == |actions| && At(end, key) == Held(b, changes, key)
    decreases |actions|
  {
    if actions != [] {
      var b', c, rest := ExecutionStep(b, env, actions, next);
      ExecutionHolds(b', env, actions[1..], next + 1, key);
      HeldUnfolds(b, b', c, rest, key);
    }
  }

  lemma {:induction false} ChangesAreRecorded(b: Book, env: Env, actions: seq<PlannedAction>, next: nat)
    requires UniqueBook(b) && AllFresh(b, env, actions)
    ensures var changes := ApplyAll(b, env, actions, next).1;
            forall i :: 0 <= i < |changes| ==> FoundHeld(b, changes, i)
    decreases |actions|
  {
    if actions != [] {
      var b', c, rest := ExecutionStep(b, env, actions, next);
      ChangesAreRecorded(b', env, actions[1..], next + 1);
      OneMoreFoundHeld(b, b', c, rest);
    }
  }

  /**
   Executing a plan whose created identities are new: each applied change recorded what the changes
   before it had made of its entity, and the workbook ends as the last ones left it.
   */
  lemma ExecutionIsRecorded(b: Book, env: Env, actions: seq<PlannedAction>, next: nat)
    requires UniqueBook(b) && AllFresh(b, env, actions)
    ensures var (end, changes) := ApplyAll(b, env, actions, next);
            && UniqueBook(end)
            && |changes| == |actions|
            && AllWellRecorded(changes)
            && (forall i :: 0 <= i < |changes| && changes[i].status.Applied? ==>
                  changes[i].before == Held(b, changes[..i], changes[i].key))
            && (forall key :: At(end, key) == Held(b, changes, key))
  {
    var (end, changes) := ApplyAll(b, env, actions, next);
    ExecutionHolds(b, env, actions, next, Key(Transaction, ""));
    forall key ensures At(end, key) == Held(b, changes, key) {
      ExecutionHolds(b, env, actions, next, key);
    }
    ChangesAreRecorded(b, env, actions, next);
    forall i | 0 <= i < |changes| && changes[i].status.Applied?
      ensures WellRecorded(changes[i]) && changes[i].before == Held(b, changes[..i], changes[i].key)
    {
      assert FoundHeld(b, changes, i);
    }
  }

  // ----- When a safe rollback goes through -----

  /** Whether a safe rollback can accept the change. */
  predicate CanUndoSafely(c: Change) {
    Reversible(c.key, c.op, c.before)
  }

  ghost predicate FieldsRecorded(c: Change) {
    && (c.after.None? ==> c.op.Archive? && c.key.kind.Budget?)
    && (c.key.kind.Budget? && c.op.Archive? ==> c.after.None?)
    && (c.op.Create? <==> c.before.None? && c.after.Some?)
    && (c.before.Some? && c.after.Some? ==>
          && c.before.value.id == c.after.value.id
          && (CanUndoSafely(c) <==> c.before.value.fields.Keys <= c.after.value.fields.Keys))
  }

  lemma SoundDecisionRecordsFields(b: Book, d: Decision, next: nat)
    requires Sound(b, d) && !d.blocked
    ensures FieldsRecorded(Record(d, next))
  {
  }

  ghost predicate AllFieldsRecorded(changes: seq<Change>) {
    forall i :: 0 <= i < |changes| && changes[i].status.Applied? ==> FieldsRecorded(changes[i])
  }

  lemma OneMoreRecorded(c: Change, rest: seq<Change>)
    requires AllFieldsRecorded(rest) && (c.status.Applied? ==> FieldsRecorded(c))
    ensures AllFieldsRecorded([c] + rest)
  {
  }

  lemma ActionRecordsFields(b: Book, env: Env, actions: seq<PlannedAction>, next: nat) returns (b': Book, c: Change)
    requires actions != []
    ensures c.status.Applied? ==> FieldsRecorded(c)
    ensures ApplyAll(b, env, actions, next).1 == [c] + ApplyAll(b', env, actions[1..], next + 1).1
  {
    var (after, d) := ApplyOne(b, env, actions[0]);
    if !d.blocked {
      SoundDecisionRecordsFields(b, d, next);
    }
    b', c := after, Record(d, next);
  }

  lemma {:induction false} ExecutionRecordsFields(b: Book, env: Env, actions: seq<PlannedAction>, next: nat)
    ensures AllFieldsRecorded(ApplyAll(b, env, actions, next).1)
    decreases |actions|
  {
    if actions != [] {
      var b', c := ActionRecordsFields(b, env, actions, next);
      ExecutionRecordsFields(b', env, actions[1..], next + 1);
      OneMoreRecorded(c, ApplyAll(b', env, actions[1..], next + 1).1);
    }
  }

  lemma AssignmentIsExactIff(before: Entity, after: Entity)
    requires before.id == after.id
    ensures Assigned(before, after.fields) == after <==> before.fields.Keys <= after.fields.Keys
  {
  }

  /** An entity a change left behind passes the conflict check exactly when the change is reversible. */
  lemma LeftIsCleanIff(c: Change)
    requires FieldsRecorded(c)
    ensures Detect(c, Left(c)).None? <==> CanUndoSafely(c)
  {
    if c.before.Some? && c.after.Some? {
      AssignmentIsExactIff(c.before.value, c.after.value);
    }
  }

  // ----- When a rollback inverts execution -----

  /** For every entity a plan changed, the last change of it found it as it was before the plan. */
  ghost predicate LastChangesFoundStart(b: Book, changes: seq<Change>) {
    forall key :: LastChange(changes, None, key).Some? ==> LastChange(changes, None, key).value.before == At(b, key)
  }

  /**
   Straight after executing a plan whose created identities are new, a forced rollback gives every
   entity back exactly when the last change of each entity found it as it was before the plan.
   */
  lemma ForcedRollbackInvertsIff(b: Book, env: Env, actions: seq<PlannedAction>, next: nat)
    requires UniqueBook(b) && AllFresh(b, env, actions)
    ensures var (end, changes) := ApplyAll(b, env, actions, next);
            SameEntities(UndoAll(end, changes, None), b) <==> LastChangesFoundStart(b, changes)
  {
    var (end, changes) := ApplyAll(b, env, actions, next);
    var undone := UndoAll(end, changes, None);
    ExecutionIsRecorded(b, env, actions, next);
    UndoAllRestores(end, changes, None);
    if LastChangesFoundStart(b, changes) {
      forall key ensures At(undone, key) == At(b, key) {
        assert At(end, key) == Held(b, changes, key);
      }
    } else {
      var key :| LastChange(changes, None, key).Some? && LastChange(changes, None, key).value.before != At(b, key);
      assert At(undone, key) != At(b, key);
    }
  }

  /** It does whenever the applied changes touch distinct entities. */
  lemma DistinctChangesFoundStart(b: Book, env: Env, actions: seq<PlannedAction>, next: nat)
    requires UniqueBook(b) && AllFresh(b, env, actions)
    requires DistinctKeys(ApplyAll(b, env, actions, next).1)
    ensures LastChangesFoundStart(b, ApplyAll(b, env, actions, next).1)
  {
    var changes := ApplyAll(b, env, actions, next).1;
    ExecutionIsRecorded(b, env, actions, next);
    forall key | LastChange(changes, None, key).Some? ensures LastChange(changes, None, key).value.before == At(b, key) {
      var i := LastChangeStands(changes, None, key);
      LastChangeIsNoneIff(changes[..i], None, key);
    }
  }

  function Reversed(changes: seq<Change>): (r: seq<Change>)
    ensures |r| == |changes| && forall i :: 0 <= i < |r| ==> r[i] == changes[|changes| - 1 - i]
  {
    seq(|changes|, i requires 0 <= i < |changes| => changes[|changes| - 1 - i])
  }

  /** Undoing the same changes last to first would give every entity back after every such plan. */
  lemma ReverseUndoInvertsExecution(b: Book, env: Env, actions: seq<PlannedAction>, next: nat)
    requires UniqueBook(b) && AllFresh(b, env, actions)
    ensures var (end, changes) := ApplyAll(b, env, actions, next);
            SameEntities(UndoAll(end, Reversed(changes), None), b)
  {
    var (end, changes) := ApplyAll(b, env, actions, next);
    var back := Reversed(changes);
    ExecutionIsRecorded(b, env, actions, next);
    UndoAllRestores(end, back, None);
    forall key ensures At(UndoAll(end, back, None), key) == At(b, key) {
      LastChangeIsNoneIff(back, None, key);
      LastChangeIsNoneIff(changes, None, key);
      if LastChange(back, None, key).Some? {
        FirstChangeFoundStart(b, changes, key);
      } else {
        forall i | 0 <= i < |changes| && IsSelected(changes[i], None) ensures changes[i].key != key {
          assert back[|changes| - 1 - i] == changes[i];
        }
        assert At(end, key) == Held(b, changes, key);
      }
    }
  }

  /** Where the first change of an entity stands: the last of the reversed ones. */
  lemma FirstChangeStands(changes: seq<Change>, key: Key) returns (i: nat)
    requires LastChange(Reversed(changes), None, key).Some?
    ensures i < |changes| && LastChange(Reversed(changes), None, key) == Some(changes[i])
    ensures forall k :: 0 <= k < i && changes[k].status.Applied? ==> changes[k].key != key
  {
    var back := Reversed(changes);
    var j := LastChangeStands(back, None, key);
    i := |changes| - 1 - j;
    LastChangeIsNoneIff(back[j + 1..], None, key);
    forall k | 0 <= k < i && changes[k].status.Applied? ensures changes[k].key != key {
      assert back[j + 1..][i - 1 - k] == changes[k];
    }
  }

  lemma NothingHeldBefore(b: Book, changes: seq<Change>, key: Key)
    requires forall k :: 0 <= k < |changes| && changes[k].status.Applied? ==> changes[k].key != key
    ensures Held(b, changes, key) == At(b, key)
  {
    LastChangeIsNoneIff(changes, None, key);
  }

  lemma FirstChangeFoundStart(b: Book, changes: seq<Change>, key: Key)
    requires forall i :: 0 <= i < |changes| && changes[i].status.Applied? ==>
               changes[i].before == Held(b, changes[..i], changes[i].key)
    requires LastChange(Reversed(changes), None, key).Some?
    ensures LastChange(Reversed(changes), None, key).value.before == At(b, key)
  {
    var i := FirstChangeStands(changes, key);
    NothingHeldBefore(b, changes[..i], key);
  }

  /** A safe rollback can accept the change beside the last one of its entity. */
  predicate AcceptsBeside(c: Change, last: Change) {
    CanUndoSafely(last) && (c.after.None? || c.after == last.after)
  }

  lemma ReversibleLeavesAfter(c: Change)
    requires FieldsRecorded(c) && CanUndoSafely(c)
    ensures c.after.Some? && Left(c) == c.after
  {
    if c.before.Some? {
      AssignmentIsExactIff(c.before.value, c.after.value);
    }
  }

  lemma DetectBesideLastIff(c: Change, last: Change)
    requires FieldsRecorded(c) && FieldsRecorded(last)
    ensures Detect(c, Left(last)).None? && Detect(last, Left(last)).None? <==> AcceptsBeside(c, last)
  {
    LeftIsCleanIff(last);
    if CanUndoSafely(last) {
      ReversibleLeavesAfter(last);
    }
  }

  /**
   Straight after such a plan a safe rollback finds no conflict exactly when, for every applied
   change, the last change of its entity is reversible and left what this change left.
   */
  lemma SafeRollbackAcceptsIff(b: Book, env: Env, actions: seq<PlannedAction>, next: nat)
    requires UniqueBook(b) && AllFresh(b, env, actions)
    ensures var (end, changes) := ApplyAll(b, env, actions, next);
            Preview(end, changes, None) == [] <==> AllAcceptable(changes)
  {
    var (end, changes) := ApplyAll(b, env, actions, next);
    ExecutionIsRecorded(b, env, actions, next);
    ExecutionRecordsFields(b, env, actions, next);
    PreviewIsEmptyIff(end, changes, None);
    forall i | 0 <= i < |changes| && changes[i].status.Applied?
      ensures LastChange(changes, None, changes[i].key).Some?
      ensures var last := LastChange(changes, None, changes[i].key).value;
              FieldsRecorded(last) && At(end, changes[i].key) == Left(last)
    {
      LastChangeIsNoneIff(changes, None, changes[i].key);
      var j := LastChangeStands(changes, None, changes[i].key);
    }
    PreviewAcceptsIff(end, changes);
  }

  /** Every applied change is accepted beside the last applied change of its entity. */
  ghost predicate AllAcceptable(changes: seq<Change>) {
    forall i :: 0 <= i < |changes| && changes[i].status.Applied? ==>
      && LastChange(changes, None, changes[i].key).Some?
      && AcceptsBeside(changes[i], LastChange(changes, None, changes[i].key).value)
  }

  lemma PreviewAcceptsIff(end: Book, changes: seq<Change>)
    requires AllFieldsRecorded(changes)
    requires forall i :: 0 <= i < |changes| && changes[i].status.Applied? ==>
               && LastChange(changes, None, changes[i].key).Some?
               && At(end, changes[i].key) == Left(LastChange(changes, None, changes[i].key).value)
    ensures (forall i :: 0 <= i < |changes| && changes[i].status.Applied? ==> Detect(changes[i], At(end, changes[i].key)).None?)
       <==> AllAcceptable(changes)
  {
    forall i | 0 <= i < |changes| && changes[i].status.Applied?
      ensures var last := LastChange(changes, None, changes[i].key).value;
              && (Detect(changes[i], Left(last)).None? && Detect(last, Left(last)).None? <==> AcceptsBeside(changes[i], last))
              && last in changes && last.status.Applied? && last.key == changes[i].key
    {
      var j := LastChangeStands(changes, None, changes[i].key);
      DetectBesideLastIff(changes[i], changes[j]);
    }
    if forall i :: 0 <= i < |changes| && changes[i].status.Applied? ==> Detect(changes[i], At(end, changes[i].key)).None? {
      forall i | 0 <= i < |changes| && changes[i].status.Applied?
        ensures AcceptsBeside(changes[i], LastChange(changes, None, changes[i].key).value)
      {
        var j := LastChangeStands(changes, None, changes[i].key);
        assert Detect(changes[j], At(end, changes[j].key)).None?;
      }
    }
  }

  /** Of distinct entities each change is the last of its own, so it accepts exactly when every applied change is reversible. */
  lemma DistinctAcceptableIff(changes: seq<Change>)
    requires DistinctKeys(changes) && AllFieldsRecorded(changes)
    ensures AllAcceptable(changes) <==> forall i :: 0 <= i < |changes| && changes[i].status.Applied? ==> CanUndoSafely(changes[i])
  {
    forall i | 0 <= i < |changes| && changes[i].status.Applied?
      ensures LastChange(changes, None, changes[i].key) == Some(changes[i])
    {
      LastChangeIsNoneIff(changes, None, changes[i].key);
      var j := LastChangeStands(changes, None, changes[i].key);
      assert i == j;
    }
  }

  // ----- A plan that changes one entity twice -----

  function Priced(amount: int): Entity {
    Entity("t", map["amount" := Num(amount)])
  }

  function PricedBook(amount: int): Book {
    Book([Priced(amount)], [], [], [])
  }

  function Pricing(amount: int): PlannedAction {
    PlannedAction("a", UpdateTransaction(ById("t"), TransactionEdit(None, Some(amount), None, None, None, None)))
  }

  function PricingChange(changeId: nat, x: int, y: int): Change {
    Change(changeId, Key(Transaction, "t"), Update, Some(Priced(x)), Some(Priced(y)), Applied)
  }

  lemma PricingApplies(env: Env, x: int, y: int, next: nat)
    requires y > 0
    ensures ApplyOne(PricedBook(x), env, Pricing(y)).0 == PricedBook(y)
    ensures Record(ApplyOne(PricedBook(x), env, Pricing(y)).1, next) == PricingChange(next, x, y)
    ensures Fresh(PricedBook(x), ApplyOne(PricedBook(x), env, Pricing(y)).1)
  {
    var fields := Priced(x).fields;
    assert fields["amount" := Num(y)] == Priced(y).fields == fields + Priced(y).fields;
    assert EditTransaction(PricedBook(x), env, fields, Pricing(y).action.edit) == (Priced(y).fields, false);
  }

  lemma FirstOfPlan(b: Book, env: Env, p: PlannedAction, rest: seq<PlannedAction>, next: nat)
    ensures var (b', d) := ApplyOne(b, env, p);
            var (end, changes) := ApplyAll(b', env, rest, next + 1);
            && ApplyAll(b, env, [p] + rest, next) == (end, [Record(d, next)] + changes)
            && (AllFresh(b, env, [p] + rest) <==> Fresh(b, d) && AllFresh(b', env, rest))
  {
    assert ([p] + rest)[1..] == rest;
  }

  lemma PricingTwiceApplies(env: Env, x: int, y: int)
    requires y > 0
    ensures ApplyAll(PricedBook(x), env, [Pricing(y), Pricing(y)], 0)
         == (PricedBook(y), [PricingChange(0, x, y), PricingChange(1, y, y)])
    ensures AllFresh(PricedBook(x), env, [Pricing(y), Pricing(y)])
  {
    var p := Pricing(y);
    PricingApplies(env, x, y, 0);
    PricingApplies(env, y, y, 1);
    FirstOfPlan(PricedBook(y), env, p, [], 1);
    FirstOfPlan(PricedBook(x), env, p, [p], 0);
    assert [p] + [] == [p] && [p] + [p] == [p, p];
    assert ApplyAll(PricedBook(y), env, [], 2) == (PricedBook(y), []);
    assert ApplyAll(PricedBook(y), env, [p], 1).1 == [PricingChange(1, y, y)];
    assert ApplyAll(PricedBook(x), env, [p, p], 0).1 == [PricingChange(0, x, y), PricingChange(1, y, y)];
  }

  lemma UndoTwo(b: Book, c: Change, d: Change)
    requires c.status.Applied? && d.status.Applied?
    ensures UndoAll(b, [c, d], None) == Undo(Undo(b, c), d)
    ensures Preview(b, [c, d], None) == [] <==> Detect(c, At(b, c.key)).None? && Detect(d, At(b, d.key)).None?
  {
    assert [c, d][1..] == [d] && [d][1..] == [];
    assert UndoAll(Undo(b, c), [d], None) == UndoAll(Undo(Undo(b, c), d), [], None);
    PreviewIsEmptyIff(b, [c, d], None);
    assert [c, d][0] == c && [c, d][1] == d;
  }

  /**
   Why the condition is there: of a plan that sets one amount twice to the same value a safe
   rollback finds no conflict, and leaves the new value.
   */
  lemma RepeatedEditIsNotUndone(env: Env, x: int, y: int)
    requires y > 0 && x != y
    ensures var b, plan := PricedBook(x), [Pricing(y), Pricing(y)];
            var (end, changes) := ApplyAll(b, env, plan, 0);
            && UniqueBook(b) && AllFresh(b, env, plan)
            && Preview(end, changes, None) == []
            && UndoAll(end, changes, None) == end
            && !SameEntities(end, b)
  {
    PricingTwiceApplies(env, x, y);
    PricingTwiceIsKept(x, y);
    PricesDiffer(x, y);
  }

  lemma PricingTwiceIsKept(x: int, y: int)
    ensures var end, changes := PricedBook(y), [PricingChange(0, x, y), PricingChange(1, y, y)];
            UniqueBook(PricedBook(x)) && Preview(end, changes, None) == [] && UndoAll(end, changes, None) == end
  {
    UndoTwo(PricedBook(y), PricingChange(0, x, y), PricingChange(1, y, y));
    PricingUndone(PricedBook(y), 0, x, y);
    PricingUndone(PricedBook(x), 1, y, y);
  }

  lemma PricingUndone(b: Book, changeId: nat, x: int, y: int)
    requires exists z :: b == PricedBook(z)
    ensures Undo(b, PricingChange(changeId, x, y)) == PricedBook(x)
  {
  }

  lemma PricesDiffer(x: int, y: int)
    requires x != y
    ensures !SameEntities(PricedBook(y), PricedBook(x))
  {
    var key := Key(Transaction, "t");
    assert Priced(x).fields["amount"] != Priced(y).fields["amount"];
    assert At(PricedBook(x), key) == Some(Priced(x)) && At(PricedBook(y), key) == Some(Priced(y));
  }

  // ----- Plans of one action -----

  lemma LonePlan(b: Book, env: Env, p: PlannedAction, next: nat)
    ensures var (b', d) := ApplyOne(b, env, p);
            ApplyAll(b, env, [p], next) == (b', [Record(d, next)])
  {
    FirstOfPlan(b, env, p, [], next);
    assert [p] + [] == [p];
    var (b', d) := ApplyOne(b, env, p);
    assert ApplyAll(b', env, [], next + 1) == (b', []);
    assert ApplyAll(b, env, [p], next).1 == [Record(d, next)];
  }

  lemma UndoOne(b: Book, c: Change)
    requires c.status.Applied?
    ensures UndoAll(b, [c], None) == Undo(b, c)
    ensures Preview(b, [c], None) == (if Detect(c, At(b, c.key)).Some? then [Conflict(c.changeId, Detect(c, At(b, c.key)).value)] else [])
  {
    assert [c][1..] == [];
    assert UndoAll(Undo(b, c), [], None) == Undo(b, c) && Preview(b, [], None) == [];
  }

  /** A safe rollback refuses an archived budget: the entity is missing, as the plan left it. */
  lemma ArchivedBudgetIsRefused(b: Book, env: Env, p: PlannedAction, next: nat)
    requires UniqueBook(b) && p.action.ArchiveBudget? && FirstNamed(b.categories, p.action.category).Some?
    ensures var (end, changes) := ApplyAll(b, env, [p], next);
            Preview(end, changes, None) == [Conflict(next, EntityMissing)]
  {
    LonePlan(b, env, p, next);
    var (b', d) := ApplyOne(b, env, p);
    ArchiveBudgetApplies(b, env, p);
    WriteSetsKey(b, d);
    UndoOne(b', Record(d, next));
  }

  lemma ArchiveBudgetApplies(b: Book, env: Env, p: PlannedAction)
    requires p.action.ArchiveBudget? && FirstNamed(b.categories, p.action.category).Some?
    ensures var d := ApplyOne(b, env, p).1;
            !d.blocked && d.op.Archive? && d.after.None?
  {
  }

  lemma DuplicateLosesTheOlder(list: seq<Entity>, e: Entity)
    requires UniqueIds(list) && Lookup(list, e.id).Some?
    ensures Sets(list, RemoveFirst(list + [e], e.id), e.id, Some(e))
  {
    var i := IndexOf(list, e.id).value;
    assert (list + [e])[i] == list[i];
    assert IndexOf(list + [e], e.id) == Some(i);
    assert RemoveFirst(list + [e], e.id) == RemoveFirst(list, e.id) + [e];
    RemoveSets(list, e.id);
    AppendSets(RemoveFirst(list, e.id), e);
  }

  /**
   Why created identities must be new: undoing one creation under a taken identity removes the
   older entity, so the workbook comes back exactly when the two are equal.
   */
  lemma TakenIdentityIsKeptIff(b: Book, env: Env, p: PlannedAction, next: nat)
    requires UniqueBook(b) && !Fresh(b, ApplyOne(b, env, p).1)
    ensures var (end, changes) := ApplyAll(b, env, [p], next);
            var undone := UndoAll(end, changes, None);
            && |changes| == 1
            && At(undone, changes[0].key) == changes[0].after
            && (SameEntities(undone, b) <==> At(b, changes[0].key) == changes[0].after)
  {
    LonePlan(b, env, p, next);
    var (b', d) := ApplyOne(b, env, p);
    UndoOne(b', Record(d, next));
    TakenIdentityUndone(b, d, next);
  }

  lemma TakenIdentityUndone(b: Book, d: Decision, next: nat)
    requires UniqueBook(b) && Sound(b, d) && !Fresh(b, d)
    ensures SetsKey(b, Undo(Perform(b, d), Record(d, next)), d.key, d.after)
  {
    var list := ListOf(b, d.key.kind);
    assert UniqueIds(list);
    DuplicateLosesTheOlder(list, d.write.e);
    ListSetsBookSets(b, d.key.kind, RemoveFirst(list + [d.write.e], d.key.id), d.key.id, d.after);
  }

  /** After a rollback nothing selected is still applied, and repeating it changes nothing. */
  lemma {:induction false} RollbackIsIdempotent(b: Book, changes: seq<Change>, selection: Selection)
    ensures UndoAll(b, MarkUndone(changes, selection), selection) == b
    ensures Preview(b, MarkUndone(changes, selection), selection) == []
    decreases |changes|
  {
    if changes != [] {
      assert MarkUndone(changes, selection)[1..] == MarkUndone(changes[1..], selection);
      RollbackIsIdempotent(b, changes[1..], selection);
    }
  }

  // ----- Double entry -----

  /** Every transaction is balanced, and every category can be posted to. */
  ghost predicate BookBalanced(b: Book) {
    && (forall e :: e in b.transactions ==> Balanced(e))
    && (forall e :: e in b.categories ==> CategoryAccount(e) != "")
  }

  ghost predicate ChangeBalanced(c: Change) {
    c.before.Some? ==>
      && (c.key.kind.Transaction? ==> Balanced(c.before.value))
      && (c.key.kind.Category? ==> CategoryAccount(c.before.value) != "")
  }

  ghost predicate ChangesBalanced(changes: seq<Change>) {
    forall c :: c in changes ==> ChangeBalanced(c)
  }

  /** Generated category identities are never empty. */
  ghost predicate NamesCategories(actions: seq<PlannedAction>) {
    forall p :: p in actions && p.action.CreateCategory? ==> p.action.wantedId != "" || p.action.newId != ""
  }

  lemma TotalOfTwo(x: Line, y: Line, debit: bool)
    ensures Total([x, y], debit) == (if x.debit == debit then x.amount else 0) + (if y.debit == debit then y.amount else 0)
  {
    assert [x, y][1..] == [y];
    assert Total([y], debit) == (if y.debit == debit then y.amount else 0) + Total([], debit);
  }

  lemma PostingLinesBalance(t: NewTransaction, account: Option<string>, category: Option<string>, destination: Option<string>)
    requires account.Some?
    requires if t.direction.Transfer? then destination.Some? else category.Some? && category.value != ""
    ensures var lines := PostingLines(t, account, category, destination);
            Total(lines, true) == Total(lines, false) == t.amount
  {
    var lines := PostingLines(t, account, category, destination);
    assert |lines| == 2 && lines == [lines[0], lines[1]];
    TotalOfTwo(lines[0], lines[1], true);
    TotalOfTwo(lines[0], lines[1], false);
  }

  /** The category a new transaction posts to, if its hint matched one. */
  function MatchedCategory(b: Book, t: NewTransaction): Option<Entity> {
    var category := if t.direction.Transfer? then None else OnlyNamed(b.categories, t.hints.category);
    if category.Some? then Some(b.categories[category.value]) else None
  }

  lemma LoneLineIsUnbalanced(x: Line)
    requires x.amount > 0
    ensures Total([x], true) != Total([x], false)
  {
    assert [x][1..] == [];
  }

  /** The lines of a transaction that is not blocked balance exactly when it is a transfer or its category has an account to post to. */
  lemma CreatedLinesBalanceIff(b: Book, env: Env, t: NewTransaction)
    requires !DecideCreateTransaction(b, env, t).blocked
    ensures var lines := CreatedLines(b, env, t);
            Total(lines, true) == Total(lines, false)
            <==> t.direction.Transfer? || (MatchedCategory(b, t).Some? && CategoryAccount(MatchedCategory(b, t).value) != "")
  {
    var account := OnlyNamed(env.accounts, t.hints.account);
    var destination := FirstNamed(env.accounts, t.hints.destination);
    var category := MatchedCategory(b, t);
    var categoryAccount := if category.Some? then Some(CategoryAccount(category.value)) else None;
    if t.direction.Transfer? || categoryAccount.value != "" {
      PostingLinesBalance(t, IdAt(env.accounts, account), categoryAccount, IdAt(env.accounts, destination));
    } else {
      var lines := CreatedLines(b, env, t);
      assert |lines| == 1 && lines == [lines[0]];
      LoneLineIsUnbalanced(lines[0]);
    }
  }

  /** The lines of a transaction that is not blocked debit and credit its amount, over postable categories. */
  lemma CreatedLinesBalance(b: Book, env: Env, t: NewTransaction)
    requires BookBalanced(b) && !DecideCreateTransaction(b, env, t).blocked
    ensures var lines := CreatedLines(b, env, t);
            Total(lines, true) == Total(lines, false) == t.amount
  {
    var account := OnlyNamed(env.accounts, t.hints.account);
    var destination := FirstNamed(env.accounts, t.hints.destination);
    var category := MatchedCategory(b, t);
    if category.Some? {
      assert category.value in b.categories;
    }
    PostingLinesBalance(t, IdAt(env.accounts, account), if category.Some? then Some(CategoryAccount(category.value)) else None,
                        IdAt(env.accounts, destination));
  }

  lemma CreatedFields(b: Book, env: Env, t: NewTransaction)
    ensures var d := DecideCreateTransaction(b, env, t);
            && LinesOf(d.after.value) == CreatedLines(b, env, t)
            && d.after.value.fields["amount"] == Num(t.amount)
            && (!d.blocked ==> t.amount > 0)
  {
  }

  lemma CreatedTransactionIsProper(b: Book, env: Env, t: NewTransaction)
    requires BookBalanced(b) && !DecideCreateTransaction(b, env, t).blocked
    ensures Proper(DecideCreateTransaction(b, env, t).after.value)
    ensures LinesMatchAmount(DecideCreateTransaction(b, env, t).after.value.fields)
  {
    CreatedLinesBalance(b, env, t);
    CreatedFields(b, env, t);
  }

  // ----- Lines and amount -----

  /** The transaction's lines debit exactly its amount. */
  predicate LinesMatchAmount(fields: Fields) {
    "amount" in fields && fields["amount"] == Num(Total(LinesOf(Entity("", fields)), true))
  }

  /** An edit never touches the lines, so it keeps them matching exactly when it does not change the amount. */
  lemma EditKeepsMatchIff(b: Book, env: Env, fields: Fields, edit: TransactionEdit)
    requires LinesMatchAmount(fields)
    ensures LinesMatchAmount(EditTransaction(b, env, fields, edit).0)
       <==> edit.amount.None? || Num(edit.amount.value) == fields["amount"]
  {
    var after := EditTransaction(b, env, fields, edit).0;
    assert LinesOf(Entity("", after)) == LinesOf(Entity("", fields));
  }

  /** Archiving and restoring keep them matching. */
  lemma ArchivingKeepsMatch(fields: Fields, now: string)
    ensures LinesMatchAmount(Archived(fields, now)) <==> LinesMatchAmount(fields)
    ensures LinesMatchAmount(Unarchived(fields)) <==> LinesMatchAmount(fields)
  {
    assert LinesOf(Entity("", Archived(fields, now))) == LinesOf(Entity("", fields));
    assert LinesOf(Entity("", Unarchived(fields))) == LinesOf(Entity("", fields));
  }

  /** A decision that pushes only balanced transactions and postable categories keeps the book balanced. */
  lemma PerformKeepsBalance(b: Book, d: Decision)
    requires BookBalanced(b) && Sound(b, d)
    requires d.write.Push? && d.key.kind.Transaction? ==> Balanced(d.write.e)
    requires d.write.Push? && d.key.kind.Category? ==> CategoryAccount(d.write.e) != ""
    ensures BookBalanced(Perform(b, d))
    ensures ChangeBalanced(Record(d, 0))
  {
  }

  lemma AssignNeverPushes(kind: Kind, list: seq<Entity>, found: Option<nat>, op: Operation, after: Fields, blocked: bool, fallback: string)
    requires found.Some? ==> found.value < |list|
    ensures !DecideAssign(kind, list, found, op, after, blocked, fallback).write.Push?
  {
  }

  lemma TransactionActionsNeverPush(b: Book, env: Env, a: Action, fallback: string)
    requires a.UpdateTransaction? || a.ArchiveTransaction? || a.RestoreTransaction? || a.AssignCategory?
    ensures !DecideTransaction(b, env, a, fallback).write.Push?
  {
    var found := FindTransaction(b.transactions, a.target);
    var fields := FieldsAt(b.transactions, found);
    match a
    case UpdateTransaction(_, edit) =>
      var (after, blocked) := EditTransaction(b, env, fields, edit);
      AssignNeverPushes(Transaction, b.transactions, found, Update, after, blocked, fallback);
    case ArchiveTransaction(_) =>
    case RestoreTransaction(_) =>
    case AssignCategory(_, _) =>
  }

  /** Only creations push transactions and categories. */
  lemma OnlyCreationsPush(b: Book, env: Env, a: Action, fallback: string)
    requires !a.CreateTransaction? && !a.CreateCategory?
    ensures var d := Decide(b, env, a, fallback);
            d.write.Push? ==> !d.key.kind.Transaction? && !d.key.kind.Category?
  {
    if a.UpdateTransaction? || a.ArchiveTransaction? || a.RestoreTransaction? || a.AssignCategory? {
      TransactionActionsNeverPush(b, env, a, fallback);
    }
  }

  /** What a decision pushes is balanced, and a category it pushes can be posted to. */
  lemma PushedIsBalanced(b: Book, env: Env, a: Action, fallback: string)
    requires BookBalanced(b)
    requires a.CreateCategory? ==> a.wantedId != "" || a.newId != ""
    ensures var d := Decide(b, env, a, fallback);
            d.write.Push? ==>
              && (d.key.kind.Transaction? ==> Balanced(d.write.e))
              && (d.key.kind.Category? ==> CategoryAccount(d.write.e) != "")
  {
    if a.CreateTransaction? {
      if !DecideCreateTransaction(b, env, a.created).blocked {
        CreatedTransactionIsProper(b, env, a.created);
      }
    } else if !a.CreateCategory? {
      OnlyCreationsPush(b, env, a, fallback);
    }
  }

  lemma ApplyOneKeepsBalance(b: Book, env: Env, p: PlannedAction, next: nat)
    requires BookBalanced(b) && NamesCategories([p])
    ensures BookBalanced(ApplyOne(b, env, p).0)
    ensures ChangeBalanced(Record(ApplyOne(b, env, p).1, next))
  {
    assert p in [p];
    PushedIsBalanced(b, env, p.action, Fallback(p));
    DecisionIsSound(b, env, p.action, Fallback(p));
    PerformKeepsBalance(b, Decide(b, env, p.action, Fallback(p)));
  }

  lemma {:induction false} ApplyAllKeepsBalance(b: Book, env: Env, actions: seq<PlannedAction>, next: nat)
    requires BookBalanced(b) && NamesCategories(actions)
    ensures BookBalanced(ApplyAll(b, env, actions, next).0)
    ensures ChangesBalanced(ApplyAll(b, env, actions, next).1)
    decreases |actions|
  {
    if actions != [] {
      assert actions[0] in actions;
      ApplyOneKeepsBalance(b, env, actions[0], next);
      ApplyAllKeepsBalance(ApplyOne(b, env, actions[0]).0, env, actions[1..], next + 1);
    }
  }

  lemma UndoKeepsBalance(b: Book, c: Change)
    requires BookBalanced(b) && ChangeBalanced(c)
    ensures BookBalanced(Undo(b, c))
  {
  }

  lemma {:induction false} UndoAllKeepsBalance(b: Book, changes: seq<Change>, selection: Selection)
    requires BookBalanced(b) && ChangesBalanced(changes)
    ensures BookBalanced(UndoAll(b, changes, selection))
    decreases |changes|
  {
    if changes != [] {
      UndoKeepsBalance(b, changes[0]);
      UndoAllKeepsBalance(if IsSelected(changes[0], selection) then Undo(b, changes[0]) else b, changes[1..], selection);
    }
  }

  // ----- Positive amounts -----

  ghost predicate BookPositive(b: Book) {
    forall e :: e in b.transactions ==> PositiveAmount(e.fields)
  }

  ghost predicate ChangesPositive(changes: seq<Change>) {
    forall c :: c in changes && c.key.kind.Transaction? && c.before.Some? ==> PositiveAmount(c.before.value.fields)
  }

  lemma PushedIsPositive(b: Book, env: Env, a: Action, fallback: string)
    ensures var d := Decide(b, env, a, fallback);
            d.write.Push? && d.key.kind.Transaction? ==> PositiveAmount(d.write.e.fields)
  {
    if a.CreateTransaction? {
      CreatedFields(b, env, a.created);
    } else if !a.CreateCategory? {
      OnlyCreationsPush(b, env, a, fallback);
    }
  }

  lemma PerformKeepsPositive(b: Book, d: Decision)
    requires BookPositive(b) && Sound(b, d)
    requires d.write.Push? && d.key.kind.Transaction? ==> PositiveAmount(d.write.e.fields)
    ensures BookPositive(Perform(b, d))
    ensures d.key.kind.Transaction? && d.before.Some? ==> PositiveAmount(d.before.value.fields)
  {
  }

  /** Whatever the accounts and categories are, actions keep every amount positive, and record positive ones. */
  lemma {:induction false} ApplyAllKeepsPositive(b: Book, env: Env, actions: seq<PlannedAction>, next: nat)
    requires BookPositive(b)
    ensures BookPositive(ApplyAll(b, env, actions, next).0)
    ensures ChangesPositive(ApplyAll(b, env, actions, next).1)
    decreases |actions|
  {
    if actions != [] {
      var p := actions[0];
      PushedIsPositive(b, env, p.action, Fallback(p));
      DecisionIsSound(b, env, p.action, Fallback(p));
      PerformKeepsPositive(b, Decide(b, env, p.action, Fallback(p)));
      ApplyAllKeepsPositive(ApplyOne(b, env, p).0, env, actions[1..], next + 1);
    }
  }

  lemma UndoKeepsPositive(b: Book, c: Change)
    requires BookPositive(b) && ChangesPositive([c])
    ensures BookPositive(Undo(b, c))
  {
    assert c in [c];
  }

  lemma {:induction false} UndoAllKeepsPositive(b: Book, changes: seq<Change>, selection: Selection)
    requires BookPositive(b) && ChangesPositive(changes)
    ensures BookPositive(UndoAll(b, changes, selection))
    decreases |changes|
  {
    if changes != [] {
      UndoKeepsPositive(b, changes[0]);
      UndoAllKeepsPositive(if IsSelected(changes[0], selection) then Undo(b, changes[0]) else b, changes[1..], selection);
    }
  }
}
