/**
 The parts of a workbook that checkpointed actions touch: four lists of entities. An entity
 is a plain object, that is, an identity and a map of fields. Amounts are whole cents.
 Identities are taken to be trimmed already.
 */
module WorkbookBook {
  import opened Options

  datatype Line = Line(account: string, debit: bool, amount: int)

  datatype Value = Text(text: string) | Num(num: int) | Flag(flag: bool) | Lines(lines: seq<Line>)

  type Fields = map<string, Value>

  datatype Entity = Entity(id: string, fields: Fields)

  datatype Kind = Transaction | RecurringItem | Category | Budget | DraftGroup

  datatype Book = Book(
    transactions: seq<Entity>,
    recurringItems: seq<Entity>,
    categories: seq<Entity>,
    budgets: seq<Entity>)

  datatype Key = Key(kind: Kind, id: string)

  function ListOf(b: Book, kind: Kind): seq<Entity> {
    match kind
    case Transaction => b.transactions
    case RecurringItem => b.recurringItems
    case Category => b.categories
    case Budget => b.budgets
    case DraftGroup => []
  }

  function WithList(b: Book, kind: Kind, list: seq<Entity>): Book {
    match kind
    case Transaction => b.(transactions := list)
    case RecurringItem => b.(recurringItems := list)
    case Category => b.(categories := list)
    case Budget => b.(budgets := list)
    case DraftGroup => b
  }

  // ----- Lists -----

  /** The position of the first entity with this identity. */
  function IndexOf(list: seq<Entity>, id: string): (r: Option<nat>)
    ensures r.Some? ==> r.value < |list| && list[r.value].id == id && forall j :: 0 <= j < r.value ==> list[j].id != id
    ensures r.None? ==> forall j :: 0 <= j < |list| ==> list[j].id != id
    decreases |list|
  {
    if list == [] then None
    else if list[0].id == id then Some(0)
    else
      var rest := IndexOf(list[1..], id);
      if rest.Some? then Some(rest.value + 1) else None
  }

  function Lookup(list: seq<Entity>, id: string): Option<Entity> {
    var i := IndexOf(list, id);
    if i.Some? then Some(list[i.value]) else None
  }

  /** `Object.assign`: every field of the source, and the fields it does not mention. */
  function Assigned(e: Entity, fields: Fields): Entity {
    e.(fields := e.fields + fields)
  }

  function RemoveFirst(list: seq<Entity>, id: string): seq<Entity> {
    var i := IndexOf(list, id);
    if i.Some? then list[..i.value] + list[i.value + 1..] else list
  }

  /** Overwrites the first entity with this identity, or appends. */
  function Put(list: seq<Entity>, id: string, e: Entity): seq<Entity> {
    var i := IndexOf(list, id);
    if i.Some? then list[i.value := e] else list + [e]
  }

  ghost predicate UniqueIds(list: seq<Entity>) {
    forall i, j :: 0 <= i < j < |list| ==> list[i].id != list[j].id
  }

  lemma LookupAt(list: seq<Entity>, i: nat)
    requires UniqueIds(list) && i < |list|
    ensures Lookup(list, list[i].id) == Some(list[i])
  {
  }

  lemma LookupAbsent(list: seq<Entity>, id: string)
    requires forall j :: 0 <= j < |list| ==> list[j].id != id
    ensures Lookup(list, id).None?
  {
  }

  /** As identity-keyed maps, `after` is `before` with `id` set to `v`. */
  ghost predicate Sets(before: seq<Entity>, after: seq<Entity>, id: string, v: Option<Entity>) {
    && UniqueIds(after)
    && Lookup(after, id) == v
    && forall other :: other != id ==> Lookup(after, other) == Lookup(before, other)
  }

  lemma AppendSets(list: seq<Entity>, e: Entity)
    requires UniqueIds(list) && Lookup(list, e.id).None?
    ensures Sets(list, list + [e], e.id, Some(e))
  {
    var after := list + [e];
    LookupAt(after, |list|);
    forall other | other != e.id ensures Lookup(after, other) == Lookup(list, other) {
      var i := IndexOf(list, other);
      if i.Some? {
        assert after[i.value] == list[i.value];
        LookupAt(after, i.value);
      } else {
        LookupAbsent(after, other);
      }
    }
  }

  lemma UpdateSets(list: seq<Entity>, i: nat, e: Entity)
    requires UniqueIds(list) && i < |list| && list[i].id == e.id
    ensures Sets(list, list[i := e], e.id, Some(e))
  {
    var after := list[i := e];
    LookupAt(after, i);
    forall other | other != e.id ensures Lookup(after, other) == Lookup(list, other) {
      var k := IndexOf(list, other);
      if k.Some? {
        assert after[k.value] == list[k.value];
        LookupAt(after, k.value);
      } else {
        LookupAbsent(after, other);
      }
    }
  }

  lemma RemoveSets(list: seq<Entity>, id: string)
    requires UniqueIds(list)
    ensures Sets(list, RemoveFirst(list, id), id, None)
  {
    var at := IndexOf(list, id);
    var after := RemoveFirst(list, id);
    if at.Some? {
      var k := at.value;
      assert forall j :: 0 <= j < |after| ==> after[j] == if j < k then list[j] else list[j + 1];
      assert forall j :: 0 <= j < |after| ==> after[j].id != id by {
        forall j | 0 <= j < |after| ensures after[j].id != id {
          if j >= k {
            assert list[k].id != list[j + 1].id;
          }
        }
      }
      LookupAbsent(after, id);
      forall other | other != id ensures Lookup(after, other) == Lookup(list, other) {
        var i := IndexOf(list, other);
        if i.Some? {
          var j := if i.value < k then i.value else i.value - 1;
          assert after[j] == list[i.value];
          LookupAt(after, j);
        } else {
          LookupAbsent(after, other);
        }
      }
    }
  }

  lemma PutSets(list: seq<Entity>, e: Entity)
    requires UniqueIds(list)
    ensures Sets(list, Put(list, e.id, e), e.id, Some(e))
  {
    var i := IndexOf(list, e.id);
    if i.Some? {
      UpdateSets(list, i.value, e);
    } else {
      AppendSets(list, e);
    }
  }

  // ----- The whole book as one keyed map -----

  function At(b: Book, key: Key): Option<Entity> {
    Lookup(ListOf(b, key.kind), key.id)
  }

  ghost predicate UniqueBook(b: Book) {
    forall kind :: UniqueIds(ListOf(b, kind))
  }

  ghost predicate SameEntities(b: Book, c: Book) {
    forall key :: At(b, key) == At(c, key)
  }

  ghost predicate SetsKey(b: Book, b': Book, key: Key, v: Option<Entity>) {
    && UniqueBook(b')
    && At(b', key) == v
    && forall other :: other != key ==> At(b', other) == At(b, other)
  }

  lemma ListSetsBookSets(b: Book, kind: Kind, list: seq<Entity>, id: string, v: Option<Entity>)
    requires UniqueBook(b) && !kind.DraftGroup? && Sets(ListOf(b, kind), list, id, v)
    ensures SetsKey(b, WithList(b, kind, list), Key(kind, id), v)
  {
    var b' := WithList(b, kind, list);
    forall k ensures UniqueIds(ListOf(b', k)) {
      if k != kind {
        assert ListOf(b', k) == ListOf(b, k);
      }
    }
    forall other: Key | other != Key(kind, id) ensures At(b', other) == At(b, other) {
      if other.kind != kind {
        assert ListOf(b', other.kind) == ListOf(b, other.kind);
      }
    }
  }

  // ----- Double entry -----

  function Total(lines: seq<Line>, debit: bool): int
    decreases |lines|
  {
    if lines == [] then 0
    else (if lines[0].debit == debit then lines[0].amount else 0) + Total(lines[1..], debit)
  }

  function LinesOf(e: Entity): seq<Line> {
    if "lines" in e.fields && e.fields["lines"].Lines? then e.fields["lines"].lines else []
  }

  predicate Balanced(e: Entity) {
    Total(LinesOf(e), true) == Total(LinesOf(e), false)
  }

  predicate PositiveAmount(fields: Fields) {
    "amount" in fields && fields["amount"].Num? && fields["amount"].num > 0
  }

  /** What every transaction should be: of a positive amount, with debits equal to credits. */
  predicate Proper(e: Entity) {
    Balanced(e) && PositiveAmount(e.fields)
  }
}
