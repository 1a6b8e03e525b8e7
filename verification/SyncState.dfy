/**
 The stored sync anchor: the writer, the lenient reader used at run time, and the strict parser
 that decides what may move to durable storage. JSON text is taken as the value it denotes, and
 identities as trimmed already.
 */
module SyncState {
  import opened Options

  datatype Json =
    | Null
    | Bool(flag: bool)
    | Number(number: int)
    | Text(text: string)
    | Array(items: seq<Json>)
    | Object(fields: map<string, Json>)

  datatype Notice = Notice(id: string, remoteRevision: int)

  datatype Base = Base(revision: int, workbook: Json)

  datatype State = State(
    known: bool,
    revision: Option<int>,
    conflict: bool,
    remoteDeleted: bool,
    notice: Option<Notice>,
    base: Option<Base>)

  const MAX_SAFE_INTEGER := 9007199254740991

  // ----- Reading single values -----

  /** A missing field reads as `undefined`, which every reader here treats like `null`. */
  function Field(j: map<string, Json>, name: string): Json {
    if name in j then j[name] else Null
  }

  predicate Truthy(j: Json) {
    match j
    case Null => false
    case Bool(flag) => flag
    case Number(n) => n != 0
    case Text(t) => t != ""
    case Array(_) => true
    case Object(_) => true
  }

  function Or(j: Json, other: Json): Json {
    if Truthy(j) then j else other
  }

  predicate IsRevision(n: int) {
    0 < n <= MAX_SAFE_INTEGER
  }

  function DecimalValue(t: string): (r: Option<int>)
    decreases |t|
  {
    if t == "" then Some(0)
    else
      var rest := DecimalValue(t[..|t| - 1]);
      var c := t[|t| - 1];
      if rest.Some? && '0' <= c <= '9' then Some(rest.value * 10 + (c as int - '0' as int)) else None
  }

  /** The number a value is taken for. An array stands for the text of its items, so a lone item stands for itself unless it is a flag. */
  function AsNumber(j: Json): Option<int> {
    match j
    case Number(n) => Some(n)
    case Bool(flag) => Some(if flag then 1 else 0)
    case Text(t) => DecimalValue(t)
    case Null => Some(0)
    case Array(items) => if items == [] then Some(0) else if |items| == 1 && !items[0].Bool? then AsNumber(items[0]) else None
    case Object(_) => None
  }

  /** A positive safe integer, also when it comes as `true`, as decimal text or alone in an array. */
  function AsRevision(j: Json): (r: Option<int>)
    ensures r.Some? ==> IsRevision(r.value)
  {
    var n := AsNumber(j);
    if n.Some? && IsRevision(n.value) then n else None
  }

  function AsId(j: Json): string {
    if j.Text? then j.text else ""
  }

  predicate NoticeChar(c: char) {
    'A' <= c <= 'Z' || 'a' <= c <= 'z' || '0' <= c <= '9' || c == '.' || c == '_' || c == ':' || c == '-'
  }

  predicate IsNoticeId(t: string) {
    1 <= |t| <= 160 && forall i :: 0 <= i < |t| ==> NoticeChar(t[i])
  }

  function AsNoticeId(j: Json): string {
    if j.Text? && IsNoticeId(j.text) then j.text else ""
  }

  function AsWorkbook(j: Json, workbookId: string): (r: Option<Json>)
    ensures r.Some? ==> r.value == j
  {
    if j.Object? && AsId(Field(j.fields, "id")) == workbookId then Some(j) else None
  }

  function NoticeOf(id: string, revision: Option<int>): Option<Notice> {
    if id != "" && revision.Some? then Some(Notice(id, revision.value)) else None
  }

  function BaseOf(workbook: Option<Json>, revision: Option<int>): Option<Base> {
    if workbook.Some? && revision.Some? then Some(Base(revision.value, workbook.value)) else None
  }

  const UNKNOWN := State(false, None, false, false, None, None)

  // ----- The lenient reader -----

  function Normalized(parsed: Json, workbookId: string): State {
    if !parsed.Object? || Field(parsed.fields, "version") != Number(1) then UNKNOWN
    else
      var f := parsed.fields;
      var workbook := AsWorkbook(Field(f, "baseWorkbook"), workbookId);
      var conflict := Field(f, "conflict") == Bool(true);
      State(
        true,
        AsRevision(Field(f, "revision")),
        conflict,
        Field(f, "remoteDeleted") == Bool(true),
        if conflict then NoticeOf(AsNoticeId(Field(f, "conflictNoticeId")), AsRevision(Field(f, "conflictRemoteRevision"))) else None,
        BaseOf(workbook, AsRevision(Or(Field(f, "baseRevision"), Field(f, "revision")))))
  }

  // ----- The strict parser -----

  predicate NoticeIsWellFormed(f: map<string, Json>) {
    var id, remote := Field(f, "conflictNoticeId"), Field(f, "conflictRemoteRevision");
    && (id.Null? <==> remote.Null?)
    && (!id.Null? ==> Field(f, "conflict") == Bool(true) && AsNoticeId(id) != "" && AsRevision(remote).Some?)
  }

  predicate BaseIsWellFormed(f: map<string, Json>, workbookId: string) {
    "baseWorkbook" in f || "baseRevision" in f ==>
      var revision, base := AsRevision(Field(f, "revision")), AsRevision(Field(f, "baseRevision"));
      && AsWorkbook(Field(f, "baseWorkbook"), workbookId).Some?
      && base.Some?
      && (revision.Some? ==> base.value <= revision.value)
  }

  function Parse(parsed: Json, workbookId: string): Option<State> {
    if !parsed.Object? then None
    else
      var f := parsed.fields;
      var revision := AsRevision(Field(f, "revision"));
      if AsRevision(Field(f, "version")) != Some(1) || !Field(f, "conflict").Bool? then None
      else if !Field(f, "revision").Null? && revision.None? then None
      else if !Field(f, "remoteDeleted").Null? && !Field(f, "remoteDeleted").Bool? then None
      else if !NoticeIsWellFormed(f) || !BaseIsWellFormed(f, workbookId) then None
      else
        Some(State(
               true,
               revision,
               Field(f, "conflict").flag,
               Field(f, "remoteDeleted") == Bool(true),
               NoticeOf(AsNoticeId(Field(f, "conflictNoticeId")), AsRevision(Field(f, "conflictRemoteRevision"))),
               BaseOf(AsWorkbook(Field(f, "baseWorkbook"), workbookId), AsRevision(Field(f, "baseRevision")))))
  }

  // ----- The writer -----

  /** The state the writer keeps and returns. Only the base and the deletion mark carry over on their own. */
  function Written(previous: State, options: map<string, Json>, workbookId: string): State {
    var revision := AsRevision(Field(options, "revision"));
    var given := "baseWorkbook" in options;
    var workbook := if given then AsWorkbook(options["baseWorkbook"], workbookId)
                    else if previous.base.Some? then Some(previous.base.value.workbook) else None;
    var baseRevision :=
      if workbook.None? then None
      else if given then AsRevision(Or(Field(options, "baseRevision"), if revision.Some? then Number(revision.value) else Null))
      else Some(previous.base.value.revision);
    var conflict := Field(options, "conflict") == Bool(true);
    var id := AsNoticeId(Field(options, "conflictNoticeId"));
    var remote := AsRevision(Field(options, "conflictRemoteRevision"));
    State(
      true,
      revision,
      conflict,
      if "remoteDeleted" in options then options["remoteDeleted"] == Bool(true) else previous.remoteDeleted,
      if conflict then
        NoticeOf(if id != "" then id else if previous.notice.Some? then previous.notice.value.id else "",
                 if remote.Some? then remote else if previous.notice.Some? then Some(previous.notice.value.remoteRevision) else None)
      else None,
      BaseOf(workbook, baseRevision))
  }

  function WithNotice(f: map<string, Json>, notice: Option<Notice>): map<string, Json> {
    if notice.Some? then
      f["conflictNoticeId" := Text(notice.value.id)]["conflictRemoteRevision" := Number(notice.value.remoteRevision)]
    else f
  }

  function WithBase(f: map<string, Json>, base: Option<Base>): map<string, Json> {
    if base.Some? then f["baseRevision" := Number(base.value.revision)]["baseWorkbook" := base.value.workbook] else f
  }

  function Serialized(s: State): Json {
    var head := map[
      "version" := Number(1),
      "revision" := if s.revision.Some? then Number(s.revision.value) else Null,
      "conflict" := Bool(s.conflict)];
    var marked := if s.remoteDeleted then head["remoteDeleted" := Bool(true)] else head;
    Object(WithBase(WithNotice(marked, s.notice), s.base))
  }

  // ----- Agreement -----

  /** What every state that was read or written satisfies. */
  ghost predicate WellFormed(s: State, workbookId: string) {
    && (s.revision.Some? ==> IsRevision(s.revision.value))
    && (s.notice.Some? ==> s.conflict && IsNoticeId(s.notice.value.id) && IsRevision(s.notice.value.remoteRevision))
    && (s.base.Some? ==> IsRevision(s.base.value.revision) && AsWorkbook(s.base.value.workbook, workbookId).Some?)
  }

  /** The one thing the strict parser asks beyond what the reader does. */
  predicate BaseWithinRevision(s: State) {
    s.base.Some? && s.revision.Some? ==> s.base.value.revision <= s.revision.value
  }

  lemma ReadIsWellFormed(parsed: Json, workbookId: string)
    ensures WellFormed(Normalized(parsed, workbookId), workbookId)
  {
  }

  lemma WrittenIsWellFormed(previous: State, options: map<string, Json>, workbookId: string)
    requires WellFormed(previous, workbookId)
    ensures WellFormed(Written(previous, options, workbookId), workbookId) && Written(previous, options, workbookId).known
  {
  }

  /** What a write does not mention: the base and the deletion mark carry over, a notice only while the conflict does. */
  lemma WriterKeepsWhatIsNotGiven(previous: State, options: map<string, Json>, workbookId: string)
    requires WellFormed(previous, workbookId)
    ensures var s := Written(previous, options, workbookId);
            && ("baseWorkbook" !in options ==> s.base == previous.base)
            && ("remoteDeleted" !in options ==> s.remoteDeleted == previous.remoteDeleted)
            && (!s.conflict ==> s.notice.None?)
            && (s.conflict && "conflictNoticeId" !in options && "conflictRemoteRevision" !in options ==> s.notice == previous.notice)
            && (s.revision.Some? ==> "revision" in options)
  {
  }

  lemma FieldsOfSerialized(s: State)
    ensures var f := Serialized(s).fields;
            && Field(f, "version") == Number(1)
            && Field(f, "revision") == (if s.revision.Some? then Number(s.revision.value) else Null)
            && Field(f, "conflict") == Bool(s.conflict)
            && Field(f, "remoteDeleted") == (if s.remoteDeleted then Bool(true) else Null)
            && Field(f, "conflictNoticeId") == (if s.notice.Some? then Text(s.notice.value.id) else Null)
            && Field(f, "conflictRemoteRevision") == (if s.notice.Some? then Number(s.notice.value.remoteRevision) else Null)
            && ("baseWorkbook" in f <==> s.base.Some?) && ("baseRevision" in f <==> s.base.Some?)
            && (s.base.Some? ==> f["baseWorkbook"] == s.base.value.workbook && f["baseRevision"] == Number(s.base.value.revision))
  {
  }

  /** A well-formed state read back is itself; the strict parser reads it too, exactly when its base is not past its revision. */
  lemma SerializedReadsBack(s: State, workbookId: string)
    requires WellFormed(s, workbookId) && s.known
    ensures Normalized(Serialized(s), workbookId) == s
    ensures Parse(Serialized(s), workbookId) == if BaseWithinRevision(s) then Some(s) else None
  {
    FieldsOfSerialized(s);
  }

  /**
   For whatever was stored before and whatever options are given: the lenient reader reads back
   what the writer returned, and the strict parser agrees with both exactly when the base written
   is not past a known revision.
   */
  lemma WriterAndParsersAgree(stored: Json, options: map<string, Json>, workbookId: string)
    ensures var s := Written(Normalized(stored, workbookId), options, workbookId);
            && Normalized(Serialized(s), workbookId) == s
            && (Parse(Serialized(s), workbookId) == Some(s) <==> BaseWithinRevision(s))
            && (Parse(Serialized(s), workbookId).None? <==> !BaseWithinRevision(s))
  {
    var previous := Normalized(stored, workbookId);
    ReadIsWellFormed(stored, workbookId);
    WrittenIsWellFormed(previous, options, workbookId);
    SerializedReadsBack(Written(previous, options, workbookId), workbookId);
  }

  /** What the strict parser accepts, the lenient reader reads the same way exactly when its version is the plain number. */
  lemma ParserRefinesReaderIff(parsed: Json, workbookId: string)
    requires Parse(parsed, workbookId).Some?
    ensures Normalized(parsed, workbookId) == Parse(parsed, workbookId).value <==> Field(parsed.fields, "version") == Number(1)
  {
    var f := parsed.fields;
    assert Field(f, "conflictNoticeId").Null? ==> AsNoticeId(Field(f, "conflictNoticeId")) == "";
  }

  /** A write that keeps the base is refused by the strict parser exactly when it names a revision below that base. */
  lemma KeptBaseIsRefusedIff(previous: State, options: map<string, Json>, workbookId: string)
    requires WellFormed(previous, workbookId) && "baseWorkbook" !in options
    ensures var revision := AsRevision(Field(options, "revision"));
            Parse(Serialized(Written(previous, options, workbookId)), workbookId).None?
            <==> previous.base.Some? && revision.Some? && revision.value < previous.base.value.revision
  {
    WrittenIsWellFormed(previous, options, workbookId);
    WriterKeepsWhatIsNotGiven(previous, options, workbookId);
    SerializedReadsBack(Written(previous, options, workbookId), workbookId);
  }

  // ----- The anchors in storage -----

  type Key = (string, string)

  /** Stored text: a JSON value, or text that does not parse. */
  datatype Raw = Stored(value: Json) | Garbled

  class AnchorStorage {
    /** The browser's storage, whose calls may throw, and the copy kept in memory beside it. */
    var storage: map<Key, Raw>
    var memoryValues: map<Key, Raw>
    var fallbackKeys: set<Key>

    constructor (stored: map<Key, Raw>)
      ensures storage == stored && memoryValues == map[] && fallbackKeys == {}
    {
      storage, memoryValues, fallbackKeys := stored, map[], {};
    }

    /** The text a read goes by; `throws` says whether the storage call fails. */
    function RawFor(key: Key, throws: bool): Option<Raw>
      reads this
    {
      if throws then Get(memoryValues, key)
      else if key in storage then Some(storage[key])
      else if key in fallbackKeys then Get(memoryValues, key)
      else None
    }

    /** Stored text that does not parse falls back to memory, like a call that throws. */
    function Read(key: Key, workbookId: string, throws: bool): State
      reads this
    {
      var raw := RawFor(key, throws);
      if raw.None? then UNKNOWN
      else if raw.value.Stored? then Normalized(raw.value.value, workbookId)
      else
        var fallback := Get(memoryValues, key);
        if fallback.Some? && fallback.value.Stored? then Normalized(fallback.value.value, workbookId) else UNKNOWN
    }

    method Write(key: Key, workbookId: string, options: map<string, Json>, readThrows: bool, writeThrows: bool) returns (s: State)
      modifies this
      ensures s == Written(old(Read(key, workbookId, readThrows)), options, workbookId)
      ensures memoryValues == old(memoryValues)[key := Stored(Serialized(s))]
      ensures storage == if writeThrows then old(storage) else old(storage)[key := Stored(Serialized(s))]
      ensures fallbackKeys == if writeThrows then old(fallbackKeys) + {key} else old(fallbackKeys) - {key}
      ensures Normalized(Serialized(s), workbookId) == s
      ensures forall throws ::
                RawFor(key, throws) == Some(Stored(Serialized(s)))
                <==> throws || !writeThrows || key !in old(storage) || old(storage)[key] == Stored(Serialized(s))
      ensures forall throws ::
                Read(key, workbookId, throws) ==
                if !throws && writeThrows && key in old(storage) && old(storage)[key].Stored?
                then Normalized(old(storage)[key].value, workbookId) else s
    {
      var previous := Read(key, workbookId, readThrows);
      assert WellFormed(previous, workbookId);
      s := Written(previous, options, workbookId);
      WrittenIsWellFormed(previous, options, workbookId);
      SerializedReadsBack(s, workbookId);
      var serialized := Stored(Serialized(s));
      memoryValues := memoryValues[key := serialized];
      if writeThrows {
        fallbackKeys := fallbackKeys + {key};
      } else {
        storage := storage[key := serialized];
        fallbackKeys := fallbackKeys - {key};
      }
    }

    method Remove(key: Key, throws: bool)
      modifies this
      ensures memoryValues == old(memoryValues) - {key} && fallbackKeys == old(fallbackKeys) - {key}
      ensures storage == if throws then old(storage) else old(storage) - {key}
      ensures !throws ==> RawFor(key, false).None?
    {
      memoryValues := memoryValues - {key};
      fallbackKeys := fallbackKeys - {key};
      if !throws {
        storage := storage - {key};
      }
    }
  }

  /** A write whose storage call throws over an older value is not read back: the older value is, whatever it says. */
  method StaleReadAfterFailedWrite(key: Key, workbookId: string, older: Json, options: map<string, Json>)
    returns (written: State, read: State)
    ensures read == Normalized(older, workbookId)
    ensures written == Written(read, options, workbookId)
  {
    var anchors := new AnchorStorage(map[key := Stored(older)]);
    written := anchors.Write(key, workbookId, options, false, true);
    read := anchors.Read(key, workbookId, false);
  }
}
