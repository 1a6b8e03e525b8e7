/**
 The three-way merge of workbook snapshots, under the policy that lets the local side win a
 collision. A snapshot is a JSON tree; a list of entities with identities is keyed by them.
 */
module WorkbookMerge {
  import opened Options

  datatype Json =
    | Scalar(text: string)
    | Object(fields: map<string, Json>)
    | Entities(items: map<string, Json>)

  type Path = seq<string>

  // ----- The merge -----

  /** One value as a whole: the side that changed, or the local side when both did. */
  function Pick(base: Option<Json>, local: Option<Json>, remote: Option<Json>): Option<Json> {
    if local == remote then local else if local == base then remote else local
  }

  predicate AllHave(b: map<string, Json>, l: map<string, Json>, r: map<string, Json>, k: string) {
    k in b && k in l && k in r
  }

  /** Objects merge field by field and entity lists entity by entity; an entity is picked whole. */
  function Merge(base: Json, local: Json, remote: Json): Json
    decreases local
  {
    if local == remote then local
    else if local == base then remote
    else if remote == base then local
    else if base.Object? && local.Object? && remote.Object? then
      var b, l, r := base.fields, local.fields, remote.fields;
      Object(map k | k in b.Keys + l.Keys + r.Keys && (AllHave(b, l, r, k) || Pick(Get(b, k), Get(l, k), Get(r, k)).Some?) ::
               if AllHave(b, l, r, k) then Merge(b[k], l[k], r[k]) else Pick(Get(b, k), Get(l, k), Get(r, k)).value)
    else if base.Entities? && local.Entities? && remote.Entities? then
      var b, l, r := base.items, local.items, remote.items;
      Entities(map k | k in b.Keys + l.Keys + r.Keys && Pick(Get(b, k), Get(l, k), Get(r, k)).Some? ::
                 Pick(Get(b, k), Get(l, k), Get(r, k)).value)
    else local
  }

  /** Without a base: the union, with the local value where both sides have different ones. */
  function Union(local: Json, remote: Json): Json
    decreases local
  {
    if local == remote then local
    else if local.Object? && remote.Object? then
      var l, r := local.fields, remote.fields;
      Object(map k | k in l.Keys + r.Keys ::
               if k in l && k in r then Union(l[k], r[k]) else if k in l then l[k] else r[k])
    else if local.Entities? && remote.Entities? then
      Entities(map k | k in local.items.Keys + remote.items.Keys ::
                 if k in local.items then local.items[k] else remote.items[k])
    else local
  }

  function IdOf(workbook: Json): string {
    if workbook.Object? && "id" in workbook.fields && workbook.fields["id"].Scalar? then workbook.fields["id"].text else ""
  }

  /** Merging two snapshots of one workbook; the local side wins, so only an identity can stop it. */
  function MergeSnapshots(base: Option<Json>, local: Json, remote: Json): Option<Json> {
    if !local.Object? || !remote.Object? then None
    else if IdOf(local) == "" || IdOf(local) != IdOf(remote) then None
    else if base.None? then Some(Union(local, remote))
    else if !base.value.Object? || IdOf(base.value) != IdOf(local) then None
    else Some(Merge(base.value, local, remote))
  }

  // ----- Reading a tree along a path -----

  function Child(j: Json, k: string): Option<Json> {
    match j
    case Scalar(_) => None
    case Object(fields) => Get(fields, k)
    case Entities(items) => Get(items, k)
  }

  function At(v: Option<Json>, path: Path): Option<Json>
    decreases |path|
  {
    if path == [] then v
    else if v.None? then None
    else At(Child(v.value, path[0]), path[1..])
  }

  /** The path runs through objects on all three sides, or ends at an entity of three lists. */
  predicate Aligned(base: Option<Json>, local: Option<Json>, remote: Option<Json>, path: Path)
    decreases |path|
  {
    path == [] ||
    (&& base.Some? && local.Some? && remote.Some?
     && (|| (base.value.Object? && local.value.Object? && remote.value.Object?
             && Aligned(Child(base.value, path[0]), Child(local.value, path[0]), Child(remote.value, path[0]), path[1..]))
         || (base.value.Entities? && local.value.Entities? && remote.value.Entities? && |path| == 1)))
  }

  predicate Divides(base: Option<Json>, local: Option<Json>, remote: Option<Json>) {
    && base.Some? && local.Some? && remote.Some?
    && ((base.value.Object? && local.value.Object? && remote.value.Object?)
        || (base.value.Entities? && local.value.Entities? && remote.value.Entities?))
  }

  function MergeValue(base: Option<Json>, local: Option<Json>, remote: Option<Json>): Option<Json> {
    if base.Some? && local.Some? && remote.Some? then Some(Merge(base.value, local.value, remote.value))
    else Pick(base, local, remote)
  }

  /** A change on one side wins, agreement stands, and a collision that cannot be divided goes to the local side. */
  predicate Settles(base: Option<Json>, local: Option<Json>, remote: Option<Json>, merged: Option<Json>) {
    && (local == base ==> merged == remote)
    && (remote == base ==> merged == local)
    && (local == remote ==> merged == local)
    && (!Divides(base, local, remote) ==> merged == Pick(base, local, remote))
  }

  lemma MergeValueSettles(base: Option<Json>, local: Option<Json>, remote: Option<Json>)
    ensures Settles(base, local, remote, MergeValue(base, local, remote))
  {
  }

  lemma PickSettles(base: Option<Json>, local: Option<Json>, remote: Option<Json>)
    ensures Settles(base, local, remote, Pick(base, local, remote))
  {
  }

  lemma MergeChild(base: Json, local: Json, remote: Json, k: string)
    requires base.Object? && local.Object? && remote.Object?
    requires local != remote && local != base && remote != base
    ensures Child(Merge(base, local, remote), k) == MergeValue(Child(base, k), Child(local, k), Child(remote, k))
  {
  }

  lemma MergeEntity(base: Json, local: Json, remote: Json, k: string)
    requires base.Entities? && local.Entities? && remote.Entities?
    requires local != remote && local != base && remote != base
    ensures Child(Merge(base, local, remote), k) == Pick(Child(base, k), Child(local, k), Child(remote, k))
  {
  }

  lemma AtOne(v: Option<Json>, path: Path)
    requires v.Some? && |path| == 1
    ensures At(v, path) == Child(v.value, path[0])
  {
  }

  /** The merge, read along any aligned path, settles what the three sides hold there. */
  lemma {:induction false} MergeSettlesEveryPath(base: Option<Json>, local: Option<Json>, remote: Option<Json>, path: Path)
    requires Aligned(base, local, remote, path)
    ensures Settles(At(base, path), At(local, path), At(remote, path), At(MergeValue(base, local, remote), path))
    decreases |path|
  {
    if path == [] {
      MergeValueSettles(base, local, remote);
    } else if local == remote || local == base || remote == base {
      MergeValueSettles(base, local, remote);
    } else if base.value.Object? && local.value.Object? {
      var k := path[0];
      MergeChild(base.value, local.value, remote.value, k);
      MergeSettlesEveryPath(Child(base.value, k), Child(local.value, k), Child(remote.value, k), path[1..]);
    } else {
      var k := path[0];
      MergeEntity(base.value, local.value, remote.value, k);
      AtOne(base, path);
      AtOne(local, path);
      AtOne(remote, path);
      AtOne(MergeValue(base, local, remote), path);
      PickSettles(Child(base.value, k), Child(local.value, k), Child(remote.value, k));
    }
  }

  /**
   Merging again after the server moved, with the earlier download as the base: an edit only this
   device made survives both merges, and what this device left alone ends as the server last had it.
   */
  lemma SecondMergeKeepsOneSidedEdits(base: Option<Json>, local: Option<Json>, first: Option<Json>, second: Option<Json>, path: Path)
    requires Aligned(base, local, first, path)
    requires Aligned(first, MergeValue(base, local, first), second, path)
    ensures var end := MergeValue(first, MergeValue(base, local, first), second);
            && (At(first, path) == At(base, path) == At(second, path) ==> At(end, path) == At(local, path))
            && (At(local, path) == At(base, path) ==> At(end, path) == At(second, path))
  {
    MergeSettlesEveryPath(base, local, first, path);
    MergeSettlesEveryPath(first, MergeValue(base, local, first), second, path);
  }

  predicate AlignedPair(local: Option<Json>, remote: Option<Json>, path: Path)
    decreases |path|
  {
    path == [] ||
    (&& local.Some? && remote.Some?
     && (|| (local.value.Object? && remote.value.Object?
             && AlignedPair(Child(local.value, path[0]), Child(remote.value, path[0]), path[1..]))
         || (local.value.Entities? && remote.value.Entities? && |path| == 1)))
  }

  predicate DividesPair(local: Option<Json>, remote: Option<Json>) {
    && local.Some? && remote.Some?
    && ((local.value.Object? && remote.value.Object?) || (local.value.Entities? && remote.value.Entities?))
  }

  function UnionValue(local: Option<Json>, remote: Option<Json>): Option<Json> {
    if local.None? then remote else if remote.None? then local else Some(Union(local.value, remote.value))
  }

  lemma UnionChild(local: Json, remote: Json, k: string)
    requires local.Object? && remote.Object? && local != remote
    ensures Child(Union(local, remote), k) == UnionValue(Child(local, k), Child(remote, k))
  {
  }

  /** The union drops nothing: along any aligned path it holds the local value, or the remote one where there is no local. */
  lemma {:induction false} UnionLosesNothing(local: Option<Json>, remote: Option<Json>, path: Path)
    requires AlignedPair(local, remote, path)
    ensures var merged := At(UnionValue(local, remote), path);
            var l, r := At(local, path), At(remote, path);
            && (l.None? ==> merged == r)
            && (r.None? ==> merged == l)
            && (l.Some? && !DividesPair(l, r) ==> merged == l)
    decreases |path|
  {
    if path != [] && local != remote && local.value.Object? {
      UnionChild(local.value, remote.value, path[0]);
      UnionLosesNothing(Child(local.value, path[0]), Child(remote.value, path[0]), path[1..]);
    }
  }

  lemma MergeKeepsIdentity(base: Option<Json>, local: Json, remote: Json)
    requires MergeSnapshots(base, local, remote).Some?
    ensures IdOf(MergeSnapshots(base, local, remote).value) == IdOf(local)
    ensures MergeSnapshots(base, local, remote).value.Object?
  {
    if base.Some? && local != remote && local != base.value && remote != base.value {
      MergeChild(base.value, local, remote, "id");
    } else if base.None? && local != remote {
      UnionChild(local, remote, "id");
    }
  }
}
