/**
 What applied actions mean for the workbook: which entity a hint names, which fields an edit
 changes, where a new transaction moves money, and what archiving and restoring leave behind.
 */
module ActionMeaning {
  import opened Options
  import opened WorkbookBook
  import opened ActionExecutor

  // ----- Which entity a hint names -----

  /** The listed positions are all of them. */
  lemma {:induction false} PositionsAreAll(list: seq<Entity>, p: Entity -> bool, start: nat)
    requires start <= |list|
    ensures forall j :: start <= j < |list| && p(list[j]) ==> j in Positions(list, p, start)
    decreases |list| - start
  {
    if start < |list| {
      PositionsAreAll(list, p, start + 1);
    }
  }

  /** And the first listed comes first. */
  lemma {:induction false} FirstPositionIsLeast(list: seq<Entity>, p: Entity -> bool, start: nat)
    requires start <= |list|
    ensures var found := Positions(list, p, start);
            && (forall k :: 0 < k < |found| ==> found[0] < found[k])
            && (|found| > 1 ==> found[0] < found[1])
    decreases |list| - start
  {
    if start < |list| && !p(list[start]) {
      FirstPositionIsLeast(list, p, start + 1);
    }
  }

  predicate OnlyAnswer(list: seq<Entity>, hint: string, i: nat) {
    i < |list| && Answers(list[i], hint) && forall j :: 0 <= j < |list| && j != i ==> !Answers(list[j], hint)
  }

  /** An account or category hint is matched exactly when it is not empty and one entity answers to it. */
  lemma HintMatchesIffUnique(list: seq<Entity>, hint: string, i: nat)
    ensures OnlyNamed(list, hint) == Some(i) <==> hint != "" && OnlyAnswer(list, hint, i)
  {
    if hint != "" {
      var p := (e: Entity) => Answers(e, hint);
      var found := Positions(list, p, 0);
      PositionsAreAll(list, p, 0);
      FirstPositionIsLeast(list, p, 0);
      assert found == Positions(list, e => Answers(e, hint), 0);
      if OnlyAnswer(list, hint, i) {
        assert i in found;
      }
    }
  }

  /** In an update, a hint names the first entity that answers to it, if any does. */
  lemma HintNamesFirst(list: seq<Entity>, hint: string)
    requires hint != ""
    ensures match FirstNamed(list, hint)
            case Some(i) => Answers(list[i], hint) && forall j :: 0 <= j < i ==> !Answers(list[j], hint)
            case None => forall j :: 0 <= j < |list| ==> !Answers(list[j], hint)
  {
    var p := (e: Entity) => Answers(e, hint);
    var found := Positions(list, p, 0);
    PositionsAreAll(list, p, 0);
    FirstPositionIsLeast(list, p, 0);
    assert found == Positions(list, e => Answers(e, hint), 0);
    forall j | 0 <= j < |list| && Answers(list[j], hint) ensures found != [] && found[0] <= j {
      assert j in found;
    }
  }

  // ----- Where money moves -----

  /** Debits less credits on one account. */
  function Net(lines: seq<Line>, account: string): int
    decreases |lines|
  {
    if lines == [] then 0
    else
      (if lines[0].account != account then 0 else if lines[0].debit then lines[0].amount else -lines[0].amount)
      + Net(lines[1..], account)
  }

  lemma NetOfTwo(x: Line, y: Line, account: string)
    ensures Net([x, y], account) == Net([x], account) + Net([y], account)
  {
  }

  /** The account money comes from and the one it goes to, by direction. */
  function From(t: NewTransaction, account: string, category: string): string {
    match t.direction
    case Income => category
    case Expense => account
    case Refund => account
    case Transfer => account
  }

  function To(t: NewTransaction, account: string, category: string, destination: string): string {
    match t.direction
    case Income => account
    case Expense => category
    case Refund => category
    case Transfer => destination
  }

  /** A created transaction takes its amount from one account and puts it on another, or on the same one, and touches no third. */
  lemma PostingMovesAmount(t: NewTransaction, account: string, category: string, destination: string, other: string)
    requires category != ""
    ensures var lines := PostingLines(t, Some(account), if t.direction.Transfer? then None else Some(category), Some(destination));
            Net(lines, other) ==
            (if other == To(t, account, category, destination) then t.amount else 0)
            - (if other == From(t, account, category) then t.amount else 0)
  {
    var lines := PostingLines(t, Some(account), if t.direction.Transfer? then None else Some(category), Some(destination));
    assert |lines| == 2 && lines == [lines[0], lines[1]];
    NetOfTwo(lines[0], lines[1], other);
  }

  // ----- What an edit changes -----

  predicate IsText(fields: Fields, name: string, text: string) {
    name in fields && fields[name] == Text(text)
  }

  /** An edit sets each field it gives to what it gives. */
  lemma EditSetsWhatItNames(b: Book, env: Env, fields: Fields, edit: TransactionEdit)
    ensures var after := EditTransaction(b, env, fields, edit).0;
            && (Given(edit.date).Some? ==> IsText(after, "date", edit.date.value))
            && (Given(edit.description).Some? ==> IsText(after, "description", edit.description.value))
            && (edit.note.Some? ==> IsText(after, "note", edit.note.value))
            && (edit.amount.Some? ==> "amount" in after && after["amount"] == Num(edit.amount.value))
    ensures var after := EditTransaction(b, env, fields, edit).0;
            && (edit.category.Some? && FirstNamed(b.categories, edit.category.value).Some? ==>
                  IsText(after, "categoryId", b.categories[FirstNamed(b.categories, edit.category.value).value].id))
            && (edit.account.Some? && FirstNamed(env.accounts, edit.account.value).Some? ==>
                  IsText(after, "primaryAccountId", env.accounts[FirstNamed(env.accounts, edit.account.value).value].id))
  {
  }

  /** And it changes no field that it does not name. */
  lemma EditKeepsTheRest(b: Book, env: Env, fields: Fields, edit: TransactionEdit, name: string)
    requires !Names(edit, name)
    ensures Get(EditTransaction(b, env, fields, edit).0, name) == Get(fields, name)
  {
  }

  /** Whether the edit gives this field a new value. */
  predicate Names(edit: TransactionEdit, name: string) {
    || (name == "date" && Given(edit.date).Some?)
    || (name == "description" && Given(edit.description).Some?)
    || (name == "note" && edit.note.Some?)
    || (name == "amount" && edit.amount.Some?)
    || (name == "categoryId" && edit.category.Some?)
    || (name == "primaryAccountId" && edit.account.Some?)
  }

  // ----- Archiving and restoring -----

  /**
   Archiving a transaction and restoring it again, as two applied actions, gives back every field
   but the flags, and leaves the archive time on it: assignment never drops a field.
   */
  lemma ArchiveThenRestore(b: Book, env: Env, id: string)
    requires UniqueBook(b) && At(b, Key(Transaction, id)).Some?
    ensures var b1 := ApplyOne(b, env, PlannedAction("", ArchiveTransaction(ById(id)))).0;
            var b2 := ApplyOne(b1, env, PlannedAction("", RestoreTransaction(ById(id)))).0;
            var e := At(b, Key(Transaction, id)).value;
            At(b2, Key(Transaction, id)) ==
            Some(e.(fields := e.fields["isArchived" := Flag(false)]["isActive" := Flag(true)]["archivedAt" := Text(env.now)]))
  {
    var b1 := ArchiveLeaves(b, env, id);
    var b2 := RestoreLeaves(b1, env, id);
    RestoredFields(At(b, Key(Transaction, id)).value.fields, env.now);
  }

  lemma RestoredFields(fields: Fields, now: string)
    ensures Archived(fields, now) + Unarchived(Archived(fields, now))
         == fields["isArchived" := Flag(false)]["isActive" := Flag(true)]["archivedAt" := Text(now)]
  {
  }

  lemma ArchiveLeaves(b: Book, env: Env, id: string) returns (after: Book)
    requires UniqueBook(b) && At(b, Key(Transaction, id)).Some?
    ensures after == ApplyOne(b, env, PlannedAction("", ArchiveTransaction(ById(id)))).0
    ensures UniqueBook(after)
    ensures var e := At(b, Key(Transaction, id)).value;
            At(after, Key(Transaction, id)) == Some(e.(fields := Archived(e.fields, env.now)))
  {
    var (b', d) := ApplyOne(b, env, PlannedAction("", ArchiveTransaction(ById(id))));
    after := b';
    WriteSetsKey(b, d);
    var e := At(b, Key(Transaction, id)).value;
    assert e.fields + Archived(e.fields, env.now) == Archived(e.fields, env.now);
  }

  lemma RestoreLeaves(b: Book, env: Env, id: string) returns (after: Book)
    requires UniqueBook(b) && At(b, Key(Transaction, id)).Some?
    ensures after == ApplyOne(b, env, PlannedAction("", RestoreTransaction(ById(id)))).0
    ensures UniqueBook(after)
    ensures var e := At(b, Key(Transaction, id)).value;
            At(after, Key(Transaction, id)) == Some(e.(fields := e.fields + Unarchived(e.fields)))
  {
    var (b', d) := ApplyOne(b, env, PlannedAction("", RestoreTransaction(ById(id))));
    after := b';
    WriteSetsKey(b, d);
  }

  // ----- Budgets -----

  /** Setting a budget twice is setting it once: the second plan finds what the first left. */
  lemma SetBudgetTwice(b: Book, env: Env, category: string, first: int, second: int, period: string)
    requires UniqueBook(b) && FirstNamed(b.categories, category).Some? && first > 0 && second > 0
    ensures var id := b.categories[FirstNamed(b.categories, category).value].id;
            var b1 := ApplyOne(b, env, PlannedAction("", SetBudget(category, first, period))).0;
            var b2 := ApplyOne(b1, env, PlannedAction("", SetBudget(category, second, period))).0;
            && SameEntities(b2, ApplyOne(b, env, PlannedAction("", SetBudget(category, second, period))).0)
            && At(b2, Key(Budget, id)) == Some(Entity(id, BudgetFields(FieldsIn(b, id), id, second, period)))
  {
    var id := b.categories[FirstNamed(b.categories, category).value].id;
    var b1 := BudgetLeaves(b, env, category, first, period);
    assert b1.categories == b.categories;
    var b2 := BudgetLeaves(b1, env, category, second, period);
    var direct := BudgetLeaves(b, env, category, second, period);
    var old1, old2 := FieldsIn(b, id), FieldsIn(b1, id);
    assert BudgetFields(old2, id, second, period) == BudgetFields(old1, id, second, period);
    forall key: Key ensures At(b2, key) == At(direct, key) {
      if key != Key(Budget, id) {
        assert At(b2, key) == At(b1, key) == At(b, key) == At(direct, key);
      }
    }
  }

  function FieldsIn(b: Book, id: string): Fields {
    var e := At(b, Key(Budget, id));
    if e.Some? then e.value.fields else map[]
  }

  function BudgetFields(fields: Fields, id: string, amount: int, period: string): Fields {
    fields["categoryId" := Text(id)]["planned" := Num(amount)]["period" := Text(period)]
  }

  lemma BudgetLeaves(b: Book, env: Env, category: string, amount: int, period: string) returns (after: Book)
    requires UniqueBook(b) && FirstNamed(b.categories, category).Some? && amount > 0
    ensures after == ApplyOne(b, env, PlannedAction("", SetBudget(category, amount, period))).0
    ensures var id := b.categories[FirstNamed(b.categories, category).value].id;
            && after.categories == b.categories
            && SetsKey(b, after, Key(Budget, id), Some(Entity(id, BudgetFields(FieldsIn(b, id), id, amount, period))))
  {
    var d := DecideBudget(b, SetBudget(category, amount, period), "action");
    BudgetDecision(b, category, amount, period);
    after := Perform(b, d);
    BudgetIsApplied(b, env, category, amount, period);
    WriteSetsKey(b, d);
  }

  lemma BudgetIsApplied(b: Book, env: Env, category: string, amount: int, period: string)
    requires Sound(b, DecideBudget(b, SetBudget(category, amount, period), "action"))
    ensures ApplyOne(b, env, PlannedAction("", SetBudget(category, amount, period))).0
         == Perform(b, DecideBudget(b, SetBudget(category, amount, period), "action"))
  {
    assert Fallback(PlannedAction("", SetBudget(category, amount, period))) == "action";
  }

  lemma BudgetDecision(b: Book, category: string, amount: int, period: string)
    requires FirstNamed(b.categories, category).Some? && amount > 0
    ensures var d := DecideBudget(b, SetBudget(category, amount, period), "action");
            var id := b.categories[FirstNamed(b.categories, category).value].id;
            && Sound(b, d) && !d.blocked && Fresh(b, d) && d.key == Key(Budget, id)
            && Perform(b, d).categories == b.categories
            && Outcome(d.before, d.after) == Some(Entity(id, BudgetFields(FieldsIn(b, id), id, amount, period)))
  {
    var d := DecideBudget(b, SetBudget(category, amount, period), "action");
    BudgetDecisionIsSound(b, SetBudget(category, amount, period), "action");
    if d.before.Some? {
      assert d.before.value.fields + d.after.value.fields == d.after.value.fields;
    }
  }
}
