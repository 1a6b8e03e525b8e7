/**
 Checkpointed actions: each one is validated against the workbook as it stands, recorded with
 the entity before and after, and, unless blocked, written in place.

 Free-text matching is exact here, and dates are judged by a predicate of the environment.
 */
module ActionExecutor {
  import opened Options
  import opened WorkbookBook

  datatype Direction = Expense | Income | Transfer | Refund

  /** The accounts (never changed here) and the calendar. */
  datatype Env = Env(accounts: seq<Entity>, validDate: string -> bool, now: string)

  datatype NewTransaction = NewTransaction(
    newId: string,
    description: string,
    amount: int,
    date: string,
    direction: Direction,
    hints: Hints)

  datatype Hints = Hints(account: string, category: string, destination: string)

  /** A transaction is named by identity, or else described well enough to be the only match. */
  datatype Target = ById(id: string) | ByMatch(date: Option<string>, amount: Option<int>, description: Option<string>)

  datatype ItemRef = ItemId(id: string) | ItemName(name: string)

  datatype TransactionEdit = TransactionEdit(
    date: Option<string>,
    amount: Option<int>,
    description: Option<string>,
    note: Option<string>,
    category: Option<string>,
    account: Option<string>)

  datatype RecurringEdit = RecurringEdit(name: Option<string>, amount: Option<int>, cadence: Option<string>)

  datatype Action =
    | CreateTransaction(created: NewTransaction)
    | CreateBatch(batch: seq<NewTransaction>)
    | UpdateTransaction(target: Target, edit: TransactionEdit)
    | ArchiveTransaction(target: Target)
    | RestoreTransaction(target: Target)
    | CreateRecurring(newId: string, name: string, amount: int)
    | UpdateRecurring(item: ItemRef, recurringEdit: RecurringEdit)
    | ArchiveRecurring(item: ItemRef)
    | RestoreRecurring(item: ItemRef)
    | AssignCategory(target: Target, category: string)
    | CreateCategory(wantedId: string, newId: string, name: string)
    | RenameCategory(category: string, name: string)
    | SetBudget(category: string, amount: int, period: string)
    | ArchiveBudget(category: string)
    | Unsupported

  datatype PlannedAction = PlannedAction(id: string, action: Action)

  datatype Operation = Create | Update | Archive | Restore

  datatype Status = Applied | Blocked | RolledBack

  datatype Change = Change(
    changeId: nat,
    key: Key,
    op: Operation,
    before: Option<Entity>,
    after: Option<Entity>,
    status: Status)

  /** How an applied action writes into its list. */
  datatype Write = NoWrite | Push(e: Entity) | Assign(index: nat, fields: Fields) | Overwrite(index: nat, e: Entity) | Splice(index: nat)

  datatype Decision = Decision(
    key: Key,
    op: Operation,
    before: Option<Entity>,
    after: Option<Entity>,
    blocked: bool,
    write: Write)

  // ----- Finding entities -----

  function NameOf(e: Entity): string {
    if "name" in e.fields && e.fields["name"].Text? then e.fields["name"].text else ""
  }

  predicate Answers(e: Entity, hint: string) {
    e.id == hint || NameOf(e) == hint
  }

  /** The positions, from `start` on, of the entities that satisfy `p`. */
  function Positions(list: seq<Entity>, p: Entity -> bool, start: nat): (r: seq<nat>)
    requires start <= |list|
    ensures forall k :: 0 <= k < |r| ==> start <= r[k] < |list| && p(list[r[k]])
    decreases |list| - start
  {
    if start == |list| then []
    else (if p(list[start]) then [start] else []) + Positions(list, p, start + 1)
  }

  function FirstNamed(list: seq<Entity>, hint: string): (r: Option<nat>)
    ensures r.Some? ==> r.value < |list|
  {
    var found := if hint == "" then [] else Positions(list, e => Answers(e, hint), 0);
    if found == [] then None else Some(found[0])
  }

  function OnlyNamed(list: seq<Entity>, hint: string): (r: Option<nat>)
    ensures r.Some? ==> r.value < |list|
  {
    var found := if hint == "" then [] else Positions(list, e => Answers(e, hint), 0);
    if |found| == 1 then Some(found[0]) else None
  }

  predicate Contains(text: string, part: string)
    decreases |text|
  {
    part <= text || (text != "" && Contains(text[1..], part))
  }

  predicate Matches(e: Entity, date: Option<string>, amount: Option<int>, description: Option<string>) {
    && (date.Some? ==> "date" in e.fields && e.fields["date"] == Text(date.value))
    && (amount.Some? && amount.value > 0 ==> "amount" in e.fields && e.fields["amount"] == Num(amount.value))
    && (description.Some? ==>
          && "description" in e.fields && e.fields["description"].Text?
          && Contains(e.fields["description"].text, description.value))
  }

  function FindTransaction(list: seq<Entity>, target: Target): (r: Option<nat>)
    ensures r.Some? ==> r.value < |list|
  {
    match target
    case ById(id) => IndexOf(list, id)
    case ByMatch(date, amount, description) =>
      var found := Positions(list, e => Matches(e, date, amount, description), 0);
      if |found| == 1 then Some(found[0]) else None
  }

  function FindRecurring(list: seq<Entity>, item: ItemRef): (r: Option<nat>)
    ensures r.Some? ==> r.value < |list|
  {
    match item
    case ItemId(id) => IndexOf(list, id)
    case ItemName(name) =>
      var found := if name == "" then [] else Positions(list, e => NameOf(e) == name, 0);
      if found == [] then None else Some(found[0])
  }

  // ----- Posting lines -----

  /** The account a category posts to. */
  function CategoryAccount(category: Entity): string {
    if "linkedAccountId" in category.fields && category.fields["linkedAccountId"].Text?
       && category.fields["linkedAccountId"].text != ""
    then category.fields["linkedAccountId"].text
    else category.id
  }

  function LineFor(account: Option<string>, debit: bool, amount: int): seq<Line> {
    if account.Some? && account.value != "" then [Line(account.value, debit, amount)] else []
  }

  function IdAt(list: seq<Entity>, i: Option<nat>): Option<string>
    requires i.Some? ==> i.value < |list|
  {
    if i.Some? then Some(list[i.value].id) else None
  }

  /** A matched account posts even with an empty identity; a category needs a non-empty one. */
  function PostingLines(t: NewTransaction, account: Option<string>, category: Option<string>, destination: Option<string>)
    : seq<Line>
  {
    var accountLine := (debit: bool) => if account.Some? then [Line(account.value, debit, t.amount)] else [];
    match t.direction
    case Income => accountLine(true) + LineFor(category, false, t.amount)
    case Transfer =>
      accountLine(false) + (if destination.Some? then [Line(destination.value, true, t.amount)] else [])
    case Expense => LineFor(category, true, t.amount) + accountLine(false)
    case Refund => LineFor(category, true, t.amount) + accountLine(false)
  }

  // ----- Decisions -----

  /** The posting lines of a new transaction, from what its hints match. */
  function CreatedLines(b: Book, env: Env, t: NewTransaction): seq<Line> {
    var account := OnlyNamed(env.accounts, t.hints.account);
    var category := if t.direction.Transfer? then None else OnlyNamed(b.categories, t.hints.category);
    var destination := FirstNamed(env.accounts, t.hints.destination);
    var categoryAccount := if category.Some? then Some(CategoryAccount(b.categories[category.value])) else None;
    PostingLines(t, IdAt(env.accounts, account), categoryAccount, IdAt(env.accounts, destination))
  }

  function DecideCreateTransaction(b: Book, env: Env, t: NewTransaction): Decision {
    var account := OnlyNamed(env.accounts, t.hints.account);
    var category := if t.direction.Transfer? then None else OnlyNamed(b.categories, t.hints.category);
    var destination := FirstNamed(env.accounts, t.hints.destination);
    var blocked :=
      || t.description == ""
      || t.amount <= 0
      || t.date == "" || !env.validDate(t.date)
      || account.None?
      || (category.None? && !t.direction.Transfer?)
      || (destination.None? && t.direction.Transfer?);
    var categoryId := IdAt(b.categories, category);
    var e := Entity(t.newId, map[
      "date" := Text(t.date),
      "description" := Text(t.description),
      "amount" := Num(t.amount),
      "categoryId" := Text(if categoryId.Some? then categoryId.value else ""),
      "primaryAccountId" := Text(if account.Some? then env.accounts[account.value].id else ""),
      "lines" := Lines(CreatedLines(b, env, t))]);
    Decision(Key(Transaction, t.newId), Create, None, Some(e), blocked, if blocked then NoWrite else Push(e))
  }

  function TextEdit(fields: Fields, name: string, text: Option<string>): Fields {
    if text.Some? then fields[name := Text(text.value)] else fields
  }

  function NumEdit(fields: Fields, name: string, num: Option<int>): Fields {
    if num.Some? then fields[name := Num(num.value)] else fields
  }

  /** An empty date or description counts as not given; an empty note does not. */
  function Given(text: Option<string>): Option<string> {
    if text == Some("") then None else text
  }

  /** What the edit leaves of a transaction's fields; it never touches the posting lines. */
  function EditTransaction(b: Book, env: Env, fields: Fields, edit: TransactionEdit): (r: (Fields, bool))
    ensures r.0.Keys >= fields.Keys
    ensures "lines" in r.0 <==> "lines" in fields
    ensures "lines" in fields ==> r.0["lines"] == fields["lines"]
    ensures !r.1 ==> PositiveAmount(r.0)
  {
    var category := if edit.category.Some? then FirstNamed(b.categories, edit.category.value) else None;
    var account := if edit.account.Some? then FirstNamed(env.accounts, edit.account.value) else None;
    var f1 := NumEdit(TextEdit(fields, "date", Given(edit.date)), "amount", edit.amount);
    var f2 := TextEdit(TextEdit(f1, "description", Given(edit.description)), "note", edit.note);
    var f3 := TextEdit(f2, "categoryId", IdAt(b.categories, category));
    var f4 := TextEdit(f3, "primaryAccountId", IdAt(env.accounts, account));
    var blocked :=
      || (edit.category.Some? && edit.category.value != "" && category.None?)
      || (edit.account.Some? && edit.account.value != "" && account.None?)
      || ("date" in f4 && f4["date"].Text? && f4["date"].text != "" && !env.validDate(f4["date"].text))
      || !("amount" in f4 && f4["amount"].Num? && f4["amount"].num > 0);
    (f4, blocked)
  }

  /** An update of a found entity; without one the action is blocked under the fallback identity. */
  function DecideAssign(kind: Kind, list: seq<Entity>, found: Option<nat>, op: Operation, after: Fields, blocked: bool, fallback: string)
    : Decision
    requires found.Some? ==> found.value < |list|
  {
    if found.None? then Decision(Key(kind, fallback), op, None, None, true, NoWrite)
    else
      var e := list[found.value];
      Decision(Key(kind, e.id), op, Some(e), Some(e.(fields := after)), blocked,
               if blocked then NoWrite else Assign(found.value, after))
  }

  function FieldsAt(list: seq<Entity>, i: Option<nat>): Fields
    requires i.Some? ==> i.value < |list|
  {
    if i.Some? then list[i.value].fields else map[]
  }

  function Archived(fields: Fields, now: string): Fields {
    fields["isArchived" := Flag(true)]["isActive" := Flag(false)]["archivedAt" := Text(now)]
  }

  function Unarchived(fields: Fields): Fields {
    fields["isArchived" := Flag(false)]["isActive" := Flag(true)] - {"archivedAt"}
  }

  function DecideTransaction(b: Book, env: Env, a: Action, fallback: string): Decision
    requires a.UpdateTransaction? || a.ArchiveTransaction? || a.RestoreTransaction? || a.AssignCategory?
  {
    var found := FindTransaction(b.transactions, a.target);
    var fields := FieldsAt(b.transactions, found);
    match a
    case UpdateTransaction(_, edit) =>
      var (after, blocked) := EditTransaction(b, env, fields, edit);
      DecideAssign(Transaction, b.transactions, found, Update, after, blocked, fallback)
    case ArchiveTransaction(_) =>
      DecideAssign(Transaction, b.transactions, found, Archive, Archived(fields, env.now), false, fallback)
    case RestoreTransaction(_) =>
      DecideAssign(Transaction, b.transactions, found, Restore, Unarchived(fields), false, fallback)
    case AssignCategory(_, hint) =>
      var category := FirstNamed(b.categories, hint);
      DecideAssign(Transaction, b.transactions, found, Update,
                   TextEdit(fields, "categoryId", IdAt(b.categories, category)), category.None?, fallback)
  }

  function EditRecurring(fields: Fields, edit: RecurringEdit): (r: Fields)
    ensures r.Keys >= fields.Keys
    ensures "lines" in r <==> "lines" in fields
    ensures "lines" in fields ==> r["lines"] == fields["lines"]
  {
    var named := NumEdit(TextEdit(fields, "name", Given(edit.name)), "amount", edit.amount);
    TextEdit(TextEdit(named, "cadence", Given(edit.cadence)), "frequency", Given(edit.cadence))
  }

  function DecideRecurring(b: Book, a: Action, fallback: string): Decision
    requires a.CreateRecurring? || a.UpdateRecurring? || a.ArchiveRecurring? || a.RestoreRecurring?
  {
    match a
    case CreateRecurring(newId, name, amount) =>
      var e := Entity(newId, map["name" := Text(name), "amount" := Num(amount), "isActive" := Flag(true)]);
      Decision(Key(RecurringItem, newId), Create, None, Some(e), name == "", if name == "" then NoWrite else Push(e))
    case UpdateRecurring(item, edit) =>
      var found := FindRecurring(b.recurringItems, item);
      var fields := FieldsAt(b.recurringItems, found);
      DecideAssign(RecurringItem, b.recurringItems, found, Update, EditRecurring(fields, edit), false, fallback)
    case ArchiveRecurring(item) =>
      var found := FindRecurring(b.recurringItems, item);
      var fields := FieldsAt(b.recurringItems, found);
      DecideAssign(RecurringItem, b.recurringItems, found, Archive,
                   fields["isActive" := Flag(false)]["isArchived" := Flag(true)], false, fallback)
    case RestoreRecurring(item) =>
      var found := FindRecurring(b.recurringItems, item);
      var fields := FieldsAt(b.recurringItems, found);
      DecideAssign(RecurringItem, b.recurringItems, found, Restore,
                   fields["isActive" := Flag(true)]["isArchived" := Flag(false)], false, fallback)
  }

  function DecideCategory(b: Book, a: Action, fallback: string): Decision
    requires a.CreateCategory? || a.RenameCategory?
  {
    match a
    case CreateCategory(wantedId, newId, name) =>
      var id := if wantedId != "" then wantedId else newId;
      var e := Entity(id, map["name" := Text(name), "isActive" := Flag(true)]);
      Decision(Key(Category, id), Create, None, Some(e), name == "", if name == "" then NoWrite else Push(e))
    case RenameCategory(category, name) =>
      var found := FirstNamed(b.categories, category);
      var fields := FieldsAt(b.categories, found);
      var kept := if found.Some? then NameOf(b.categories[found.value]) else "";
      DecideAssign(Category, b.categories, found, Update,
                   fields["name" := Text(if name != "" then name else kept)], false, fallback)
  }

  function DecideBudget(b: Book, a: Action, fallback: string): Decision
    requires a.SetBudget? || a.ArchiveBudget?
  {
    var category := FirstNamed(b.categories, a.category);
    if category.None? then
      Decision(Key(Budget, fallback), if a.ArchiveBudget? then Archive else Create, None, None, true, NoWrite)
    else
      var id := b.categories[category.value].id;
      var found := IndexOf(b.budgets, id);
      var before := if found.Some? then Some(b.budgets[found.value]) else None;
      match a
      case ArchiveBudget(_) =>
        Decision(Key(Budget, id), Archive, before, None, false, if found.Some? then Splice(found.value) else NoWrite)
      case SetBudget(_, amount, period) =>
        var fields := if found.Some? then b.budgets[found.value].fields else map[];
        var e := Entity(id, fields["categoryId" := Text(id)]["planned" := Num(amount)]["period" := Text(period)]);
        Decision(Key(Budget, id), if found.Some? then Update else Create, before, Some(e), amount <= 0,
                 if amount <= 0 then NoWrite else if found.Some? then Overwrite(found.value, e) else Push(e))
  }

  function Decide(b: Book, env: Env, a: Action, fallback: string): Decision {
    match a
    case CreateTransaction(t) => DecideCreateTransaction(b, env, t)
    case UpdateTransaction(_, _) => DecideTransaction(b, env, a, fallback)
    case ArchiveTransaction(_) => DecideTransaction(b, env, a, fallback)
    case RestoreTransaction(_) => DecideTransaction(b, env, a, fallback)
    case AssignCategory(_, _) => DecideTransaction(b, env, a, fallback)
    case CreateRecurring(_, _, _) => DecideRecurring(b, a, fallback)
    case UpdateRecurring(_, _) => DecideRecurring(b, a, fallback)
    case ArchiveRecurring(_) => DecideRecurring(b, a, fallback)
    case RestoreRecurring(_) => DecideRecurring(b, a, fallback)
    case CreateCategory(_, _, _) => DecideCategory(b, a, fallback)
    case RenameCategory(_, _) => DecideCategory(b, a, fallback)
    case SetBudget(_, _, _) => DecideBudget(b, a, fallback)
    case ArchiveBudget(_) => DecideBudget(b, a, fallback)
    case CreateBatch(_) => Decision(Key(DraftGroup, fallback), Update, None, None, true, NoWrite)
    case Unsupported => Decision(Key(DraftGroup, fallback), Update, None, None, true, NoWrite)
  }

  // ----- Writing -----

  predicate CanWrite(list: seq<Entity>, w: Write) {
    match w
    case Assign(i, _) => i < |list|
    case Overwrite(i, _) => i < |list|
    case Splice(i) => i < |list|
    case _ => true
  }

  function Written(list: seq<Entity>, w: Write): seq<Entity>
    requires CanWrite(list, w)
  {
    match w
    case NoWrite => list
    case Push(e) => list + [e]
    case Assign(i, fields) => list[i := Assigned(list[i], fields)]
    case Overwrite(i, e) => list[i := e]
    case Splice(i) => list[..i] + list[i + 1..]
  }

  /** The two kinds of change a safe rollback always refuses; see `Rollback.SafeRollbackAcceptsIff`. */
  predicate Reversible(key: Key, op: Operation, before: Option<Entity>) {
    && !(key.kind.Budget? && op.Archive?)
    && !(key.kind.Transaction? && op.Restore? && before.Some? && "archivedAt" in before.value.fields)
  }

  predicate KeepsLines(fields: Fields, after: Fields) {
    && ("lines" in after <==> "lines" in fields)
    && ("lines" in after ==> after["lines"] == fields["lines"])
  }

  /** What every decision promises: what it read, what it records, and what it writes agree. */
  ghost predicate Sound(b: Book, d: Decision) {
    var list := ListOf(b, d.key.kind);
    && CanWrite(list, d.write)
    && (d.blocked ==> d.write.NoWrite?)
    && (d.before.Some? ==> d.before.value in list && d.before.value.id == d.key.id)
    && (d.blocked || SoundWrite(b, d))
  }

  ghost predicate SoundWrite(b: Book, d: Decision)
    requires CanWrite(ListOf(b, d.key.kind), d.write)
  {
    var list := ListOf(b, d.key.kind);
    match d.write
    case NoWrite =>
      d.key.kind.Budget? && d.op.Archive? && d.before.None? && d.after.None? && At(b, d.key).None?
    case Push(e) =>
      d.op.Create? && !d.key.kind.DraftGroup? && e.id == d.key.id && d.before.None? && d.after == Some(e)
    case Assign(i, fields) =>
      && !d.op.Create? && !d.key.kind.DraftGroup? && !d.key.kind.Budget?
      && list[i].id == d.key.id && d.before == Some(list[i]) && d.after == Some(list[i].(fields := fields))
      && KeepsLines(list[i].fields, fields)
      && (d.key.kind.Transaction? ==> (PositiveAmount(list[i].fields) ==> PositiveAmount(fields)))
      && (d.key.kind.Category? ==> Get(fields, "linkedAccountId") == Get(list[i].fields, "linkedAccountId"))
      && (Reversible(d.key, d.op, d.before) <==> list[i].fields.Keys <= fields.Keys)
    case Overwrite(i, e) =>
      && d.key.kind.Budget? && d.op.Update?
      && list[i].id == d.key.id == e.id && d.before == Some(list[i]) && d.after == Some(e)
      && list[i].fields.Keys <= e.fields.Keys && IndexOf(list, d.key.id) == Some(i)
    case Splice(i) =>
      && d.key.kind.Budget? && d.op.Archive?
      && IndexOf(list, d.key.id) == Some(i) && d.before == Some(list[i]) && d.after.None?
  }

  lemma AssignIsSound(b: Book, kind: Kind, found: Option<nat>, op: Operation, after: Fields, blocked: bool, fallback: string)
    requires kind.Transaction? || kind.RecurringItem? || kind.Category?
    requires !op.Create? && (found.Some? ==> found.value < |ListOf(b, kind)|)
    requires found.Some? ==>
               var fields := ListOf(b, kind)[found.value].fields;
               && KeepsLines(fields, after)
               && (kind.Transaction? && !blocked && PositiveAmount(fields) ==> PositiveAmount(after))
               && (kind.Category? ==> Get(after, "linkedAccountId") == Get(fields, "linkedAccountId"))
               && (Reversible(Key(kind, ""), op, Some(ListOf(b, kind)[found.value])) <==> fields.Keys <= after.Keys)
    ensures Sound(b, DecideAssign(kind, ListOf(b, kind), found, op, after, blocked, fallback))
  {
  }

  lemma TransactionDecisionIsSound(b: Book, env: Env, a: Action, fallback: string)
    requires a.UpdateTransaction? || a.ArchiveTransaction? || a.RestoreTransaction? || a.AssignCategory?
    ensures Sound(b, DecideTransaction(b, env, a, fallback))
  {
    var found := FindTransaction(b.transactions, a.target);
    var fields := FieldsAt(b.transactions, found);
    match a
    case UpdateTransaction(_, edit) =>
      var (after, blocked) := EditTransaction(b, env, fields, edit);
      AssignIsSound(b, Transaction, found, Update, after, blocked, fallback);
    case ArchiveTransaction(_) =>
      AssignIsSound(b, Transaction, found, Archive, Archived(fields, env.now), false, fallback);
    case RestoreTransaction(_) =>
      AssignIsSound(b, Transaction, found, Restore, Unarchived(fields), false, fallback);
    case AssignCategory(_, hint) =>
      var category := FirstNamed(b.categories, hint);
      AssignIsSound(b, Transaction, found, Update, TextEdit(fields, "categoryId", IdAt(b.categories, category)), category.None?, fallback);
  }

  lemma RecurringDecisionIsSound(b: Book, a: Action, fallback: string)
    requires a.CreateRecurring? || a.UpdateRecurring? || a.ArchiveRecurring? || a.RestoreRecurring?
    ensures Sound(b, DecideRecurring(b, a, fallback))
  {
    if !a.CreateRecurring? {
      var found := FindRecurring(b.recurringItems, a.item);
      var fields := FieldsAt(b.recurringItems, found);
      match a
      case UpdateRecurring(_, edit) =>
        AssignIsSound(b, RecurringItem, found, Update, EditRecurring(fields, edit), false, fallback);
      case ArchiveRecurring(_) =>
        AssignIsSound(b, RecurringItem, found, Archive, fields["isActive" := Flag(false)]["isArchived" := Flag(true)], false, fallback);
      case RestoreRecurring(_) =>
        AssignIsSound(b, RecurringItem, found, Restore, fields["isActive" := Flag(true)]["isArchived" := Flag(false)], false, fallback);
    }
  }

  lemma CategoryDecisionIsSound(b: Book, a: Action, fallback: string)
    requires a.CreateCategory? || a.RenameCategory?
    ensures Sound(b, DecideCategory(b, a, fallback))
  {
  }

  lemma BudgetDecisionIsSound(b: Book, a: Action, fallback: string)
    requires a.SetBudget? || a.ArchiveBudget?
    ensures Sound(b, DecideBudget(b, a, fallback))
  {
  }

  lemma DecisionIsSound(b: Book, env: Env, a: Action, fallback: string)
    ensures Sound(b, Decide(b, env, a, fallback))
  {
    if a.UpdateTransaction? || a.ArchiveTransaction? || a.RestoreTransaction? || a.AssignCategory? {
      TransactionDecisionIsSound(b, env, a, fallback);
    } else if a.CreateRecurring? || a.UpdateRecurring? || a.ArchiveRecurring? || a.RestoreRecurring? {
      RecurringDecisionIsSound(b, a, fallback);
    } else if a.CreateCategory? || a.RenameCategory? {
      CategoryDecisionIsSound(b, a, fallback);
    } else if a.SetBudget? || a.ArchiveBudget? {
      BudgetDecisionIsSound(b, a, fallback);
    }
  }

  function Perform(b: Book, d: Decision): Book
    requires CanWrite(ListOf(b, d.key.kind), d.write)
  {
    WithList(b, d.key.kind, Written(ListOf(b, d.key.kind), d.write))
  }

  function Record(d: Decision, changeId: nat): Change {
    Change(changeId, d.key, d.op, d.before, d.after, if d.blocked then Blocked else Applied)
  }

  // ----- Plans -----

  /** A batch is its transactions in order; an empty one is a blocked action. */
  function Flatten(plan: seq<PlannedAction>): seq<PlannedAction>
    decreases |plan|
  {
    if plan == [] then []
    else
      var p := plan[0];
      (if p.action.CreateBatch? && p.action.batch != [] then
         seq(|p.action.batch|, i requires 0 <= i < |p.action.batch| => PlannedAction(p.id, CreateTransaction(p.action.batch[i])))
       else [p]) + Flatten(plan[1..])
  }

  function Fallback(p: PlannedAction): string {
    if p.id != "" then p.id else "action"
  }

  function ApplyOne(b: Book, env: Env, p: PlannedAction): (r: (Book, Decision))
    ensures Sound(b, r.1) && r.0 == Perform(b, r.1)
  {
    var d := Decide(b, env, p.action, Fallback(p));
    DecisionIsSound(b, env, p.action, Fallback(p));
    (Perform(b, d), d)
  }

  /** Runs flattened actions in order, numbering their changes from `next`. */
  function ApplyAll(b: Book, env: Env, actions: seq<PlannedAction>, next: nat): (Book, seq<Change>)
    decreases |actions|
  {
    if actions == [] then (b, [])
    else
      var (b', d) := ApplyOne(b, env, actions[0]);
      var (end, rest) := ApplyAll(b', env, actions[1..], next + 1);
      (end, [Record(d, next)] + rest)
  }

  /** One turn of the loop over a plan's actions. */
  lemma ApplyAllStep(b: Book, env: Env, actions: seq<PlannedAction>, i: nat, next: nat)
    requires i < |actions|
    ensures var (b', d) := ApplyOne(b, env, actions[i]);
            var (end, rest) := ApplyAll(b', env, actions[i + 1..], next + 1);
            ApplyAll(b, env, actions[i..], next) == (end, [Record(d, next)] + rest)
  {
  }

  // ----- What one decision does to the keyed book -----

  lemma BlockedWritesNothing(b: Book, d: Decision)
    requires Sound(b, d) && d.blocked
    ensures Perform(b, d) == b
  {
  }

  /** A created entity must be new; everything else names what it found. */
  ghost predicate Fresh(b: Book, d: Decision) {
    d.op.Create? && !d.blocked ==> At(b, d.key).None?
  }

  /** What the book holds under the key afterwards: assignment keeps fields the new value dropped. */
  function Outcome(before: Option<Entity>, after: Option<Entity>): Option<Entity> {
    if before.Some? && after.Some? then Some(Assigned(before.value, after.value.fields)) else after
  }

  /** The write left this list, and the list sets that one entity to the outcome. */
  ghost predicate WritesOutcome(b: Book, d: Decision)
    requires CanWrite(ListOf(b, d.key.kind), d.write)
  {
    var list := ListOf(b, d.key.kind);
    Sets(list, Written(list, d.write), d.key.id, Outcome(d.before, d.after))
  }

  lemma PushWritesOutcome(b: Book, d: Decision)
    requires UniqueBook(b) && Sound(b, d) && !d.blocked && d.write.Push? && Fresh(b, d)
    ensures d.before == At(b, d.key) && WritesOutcome(b, d)
  {
    AppendSets(ListOf(b, d.key.kind), d.write.e);
  }

  lemma AssignWritesOutcome(b: Book, d: Decision)
    requires UniqueBook(b) && Sound(b, d) && !d.blocked && d.write.Assign?
    ensures d.before == At(b, d.key) && WritesOutcome(b, d)
  {
    var list, i := ListOf(b, d.key.kind), d.write.index;
    LookupAt(list, i);
    UpdateSets(list, i, Assigned(list[i], d.write.fields));
  }

  lemma OverwriteWritesOutcome(b: Book, d: Decision)
    requires UniqueBook(b) && Sound(b, d) && !d.blocked && d.write.Overwrite?
    ensures d.before == At(b, d.key) && WritesOutcome(b, d)
  {
    var list, i := ListOf(b, d.key.kind), d.write.index;
    assert list[i].fields + d.write.e.fields == d.write.e.fields;
    UpdateSets(list, i, d.write.e);
  }

  lemma SpliceWritesOutcome(b: Book, d: Decision)
    requires UniqueBook(b) && Sound(b, d) && !d.blocked && d.write.Splice?
    ensures d.before == At(b, d.key) && WritesOutcome(b, d)
  {
    RemoveSets(ListOf(b, d.key.kind), d.key.id);
  }

  lemma NoWriteWritesOutcome(b: Book, d: Decision)
    requires UniqueBook(b) && Sound(b, d) && !d.blocked && d.write.NoWrite?
    ensures d.before == At(b, d.key) && WritesOutcome(b, d)
  {
  }

  lemma SoundWriteHasAList(b: Book, d: Decision)
    requires Sound(b, d) && !d.blocked
    ensures !d.key.kind.DraftGroup?
  {
  }

  /** An applied decision recorded what the book held, and sets that one entity to its outcome. */
  lemma WriteSetsKey(b: Book, d: Decision)
    requires UniqueBook(b) && Sound(b, d) && !d.blocked && Fresh(b, d)
    ensures d.before == At(b, d.key)
    ensures SetsKey(b, Perform(b, d), d.key, Outcome(d.before, d.after))
  {
    match d.write {
      case NoWrite => NoWriteWritesOutcome(b, d);
      case Push(_) => PushWritesOutcome(b, d);
      case Assign(_, _) => AssignWritesOutcome(b, d);
      case Overwrite(_, _) => OverwriteWritesOutcome(b, d);
      case Splice(_) => SpliceWritesOutcome(b, d);
    }
    SoundWriteHasAList(b, d);
    ListSetsBookSets(b, d.key.kind, Written(ListOf(b, d.key.kind), d.write), d.key.id, Outcome(d.before, d.after));
  }
}
