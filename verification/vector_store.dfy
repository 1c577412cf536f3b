/** The Chroma collection as the vector-store helpers see it: a sequence of
    ids paired with optional metadata. Embeddings, similarity ranking and
    persistence stay outside the model. */
module VectorStore {
  import opened Wrappers
  import opened Seqs
  import opened Documents

  /** One stored chunk: its id and its metadata (`None` when Chroma has none). */
  datatype Entry = Entry(id: string, metadata: Option<Metadata>)

  type Collection = seq<Entry>

  /** The collection behind `get_vector_store()`, or the message of the
      exception raised while opening it. */
  type Store = Result<Collection>

  /** The columnar reply of `collection.get(...)`: ids and metadatas side by side. */
  datatype GetResult = GetResult(ids: seq<string>, metadatas: seq<Option<Metadata>>)

  /** The state of the collection after an operation, and the ids handed to
      `collection.delete`, `None` when no delete call is made. */
  datatype DeleteOutcome = DeleteOutcome(collection: Collection, deleted: Option<seq<string>>)

  /** Chroma keeps ids unique within a collection. */
  predicate UniqueIds(c: Collection) {
    forall i, j :: 0 <= i < j < |c| ==> c[i].id != c[j].id
  }

  function Get(c: Collection): (r: GetResult)
    ensures |r.ids| == |c| && |r.metadatas| == |c|
    ensures forall i :: 0 <= i < |c| ==> r.ids[i] == c[i].id && r.metadatas[i] == c[i].metadata
  {
    GetResult(seq(|c|, i requires 0 <= i < |c| => c[i].id),
              seq(|c|, i requires 0 <= i < |c| => c[i].metadata))
  }

  // ---------------------------------------------------------------------------
  // Counting and listing sources
  // ---------------------------------------------------------------------------

  /** `get_document_count`: the number of stored chunks, and 0 when opening
      the store raised. */
  function DocumentCount(store: Store): (r: nat)
    ensures store.Ok? ==> r == |store.value|
    ensures store.Err? ==> r == 0
  {
    match store
    case Ok(c) => |c|
    case Err(_) => 0
  }

  /** The `source` of a metadata entry; null metadata and metadata without the
      key give nothing. */
  function MetadataSource(md: Option<Metadata>): Option<Value> {
    if md.Some? && SourceKey in md.value then Some(md.value[SourceKey]) else None
  }

  function SourceValues(metadatas: seq<Option<Metadata>>): (r: seq<Value>)
    ensures |r| <= |metadatas|
    ensures forall v :: v in r <==> exists i :: 0 <= i < |metadatas| && MetadataSource(metadatas[i]) == Some(v)
    decreases |metadatas|
  {
    if |metadatas| == 0 then []
    else
      var rest := SourceValues(metadatas[1..]);
      assert forall v :: (exists i :: 0 <= i < |metadatas| - 1 && MetadataSource(metadatas[1..][i]) == Some(v))
                         ==> (exists i :: 0 <= i < |metadatas| && MetadataSource(metadatas[i]) == Some(v));
      var first := MetadataSource(metadatas[0]);
      if first.Some? then [first.value] + rest else rest
  }

  /** `get_all_sources`: each distinct `source` value present in the
      collection exactly once, and the empty list when the store raised. */
  function AllSources(store: Store): (r: seq<Value>)
    ensures NoDuplicates(r)
    ensures store.Err? ==> r == []
    ensures store.Ok? ==>
              forall v :: v in r <==> exists e :: e in store.value && MetadataSource(e.metadata) == Some(v)
  {
    match store
    case Err(_) => []
    case Ok(c) =>
      var g := Get(c);
      var r := Dedup(SourceValues(g.metadatas));
      assert forall v :: (exists e :: e in c && MetadataSource(e.metadata) == Some(v))
                         ==> (exists i :: 0 <= i < |c| && MetadataSource(g.metadatas[i]) == Some(v)) by {
        forall v | exists e :: e in c && MetadataSource(e.metadata) == Some(v)
          ensures exists i :: 0 <= i < |c| && MetadataSource(g.metadatas[i]) == Some(v)
        {
          var e :| e in c && MetadataSource(e.metadata) == Some(v);
          var i :| 0 <= i < |c| && c[i] == e;
          assert MetadataSource(g.metadatas[i]) == Some(v);
        }
      }
      r
  }

  /** There are never more distinct sources than stored chunks; an empty
      collection has none. */
  lemma SourcesBoundedByCount(store: Store)
    ensures |AllSources(store)| <= DocumentCount(store)
    ensures DocumentCount(store) == 0 ==> AllSources(store) == []
  {
    if store.Ok? {
      var c := store.value;
      var g := Get(c);
      assert AllSources(store) == Dedup(SourceValues(g.metadatas));
    }
  }

  // ---------------------------------------------------------------------------
  // Deleting
  // ---------------------------------------------------------------------------

  /** `metadata and metadata.get("source") == source`. */
  predicate Matches(md: Option<Metadata>, source: string) {
    MetadataSource(md) == Some(Str(source))
  }

  /** The ids selected by `delete_documents_by_source`: `zip` pairs ids and
      metadatas positionally and stops at the shorter list. */
  function IdsToDelete(ids: seq<string>, metadatas: seq<Option<Metadata>>, source: string): (r: seq<string>)
    ensures |r| <= |ids| && |r| <= |metadatas|
    ensures forall id :: id in r ==>
              exists i :: 0 <= i < |ids| && i < |metadatas| && ids[i] == id && Matches(metadatas[i], source)
    ensures forall i :: 0 <= i < |ids| && i < |metadatas| && Matches(metadatas[i], source) ==> ids[i] in r
    decreases |ids|
  {
    if |ids| == 0 || |metadatas| == 0 then []
    else
      var idsTail, mdsTail := ids[1..], metadatas[1..];
      var rest := IdsToDelete(idsTail, mdsTail, source);
      forall id | id in rest
        ensures exists i :: 0 <= i < |ids| && i < |metadatas| && ids[i] == id && Matches(metadatas[i], source)
      {
        var i :| 0 <= i < |idsTail| && i < |mdsTail| && idsTail[i] == id && Matches(mdsTail[i], source);
        assert ids[i + 1] == id && Matches(metadatas[i + 1], source);
      }
      forall i | 1 <= i < |ids| && i < |metadatas| && Matches(metadatas[i], source)
        ensures ids[i] in rest
      {
        assert idsTail[i - 1] == ids[i] && mdsTail[i - 1] == metadatas[i];
      }
      (if Matches(metadatas[0], source) then [ids[0]] else []) + rest
  }

  /** What `collection.delete(ids=…)` leaves: every entry whose id is not listed, in order. */
  function RemoveIds(c: Collection, ids: seq<string>): (r: Collection)
    ensures forall e :: e in r <==> e in c && e.id !in ids
    decreases |c|
  {
    if |c| == 0 then []
    else (if c[0].id in ids then [] else [c[0]]) + RemoveIds(c[1..], ids)
  }

  /** The reference answer for deleting by source: the entries whose source
      differs from the argument, in their original order. */
  function KeepOtherSources(c: Collection, source: string): (r: Collection)
    ensures forall e :: e in r <==> e in c && !Matches(e.metadata, source)
    decreases |c|
  {
    if |c| == 0 then []
    else (if Matches(c[0].metadata, source) then [] else [c[0]]) + KeepOtherSources(c[1..], source)
  }

  lemma {:induction false} RemoveIdsIsFilter(c: Collection, ids: seq<string>, source: string)
    requires forall e :: e in c ==> (e.id in ids <==> Matches(e.metadata, source))
    ensures RemoveIds(c, ids) == KeepOtherSources(c, source)
    decreases |c|
  {
    if |c| > 0 {
      assert c[0] in c;
      assert forall e :: e in c[1..] ==> e in c;
      RemoveIdsIsFilter(c[1..], ids, source);
    }
  }

  /** `delete_documents_by_source`. Opening the store is not guarded, so its
      failure propagates. No delete call is made when nothing matches. */
  function DeleteBySource(store: Store, source: string): (r: Result<DeleteOutcome>)
    ensures store.Err? ==> r == Err(store.error)
    ensures store.Ok? ==> r.Ok?
    ensures r.Ok? ==>
              (r.value.deleted.None? <==> forall e :: e in store.value ==> !Matches(e.metadata, source))
    ensures r.Ok? && r.value.deleted.None? ==> r.value.collection == store.value
    ensures r.Ok? ==> forall e :: e in r.value.collection ==> e in store.value && !Matches(e.metadata, source)
  {
    match store
    case Err(e) => Err(e)
    case Ok(c) =>
      var g := Get(c);
      var ids := IdsToDelete(g.ids, g.metadatas, source);
      if ids == [] then
        assert forall e :: e in c ==> !Matches(e.metadata, source) by {
          forall e | e in c ensures !Matches(e.metadata, source) {
            var i :| 0 <= i < |c| && c[i] == e;
            assert g.ids[i] == e.id && g.metadatas[i] == e.metadata;
          }
        }
        Ok(DeleteOutcome(c, None))
      else
        assert forall e :: e in c && Matches(e.metadata, source) ==> e.id in ids by {
          forall e | e in c && Matches(e.metadata, source) ensures e.id in ids {
            var i :| 0 <= i < |c| && c[i] == e;
            assert g.ids[i] == e.id && Matches(g.metadatas[i], source);
          }
        }
        assert ids[0] in ids;
        Ok(DeleteOutcome(RemoveIds(c, ids), Some(ids)))
  }

  /** With Chroma's unique ids, deleting by source is exactly the filter that
      keeps the other sources: every matching chunk goes, every other chunk
      stays, and the order is kept. */
  lemma DeleteBySourceIsExactFilter(c: Collection, source: string)
    requires UniqueIds(c)
    ensures DeleteBySource(Ok(c), source).Ok?
    ensures DeleteBySource(Ok(c), source).value.collection == KeepOtherSources(c, source)
  {
    var g := Get(c);
    var ids := IdsToDelete(g.ids, g.metadatas, source);
    forall e | e in c
      ensures e.id in ids <==> Matches(e.metadata, source)
    {
      var j :| 0 <= j < |c| && c[j] == e;
      if e.id in ids {
        var i :| 0 <= i < |c| && g.ids[i] == e.id && Matches(g.metadatas[i], source);
        assert c[i].id == c[j].id;
        assert i == j;
      }
      if Matches(e.metadata, source) {
        assert g.ids[j] == e.id && Matches(g.metadatas[j], source);
      }
    }
    RemoveIdsIsFilter(c, ids, source);
    if ids == [] {
      assert forall e :: e in c ==> !Matches(e.metadata, source);
      KeepAllWhenNoneMatch(c, source);
    }
  }

  lemma {:induction false} KeepAllWhenNoneMatch(c: Collection, source: string)
    requires forall e :: e in c ==> !Matches(e.metadata, source)
    ensures KeepOtherSources(c, source) == c
    decreases |c|
  {
    if |c| > 0 {
      assert c[0] in c;
      assert forall e :: e in c[1..] ==> e in c;
      KeepAllWhenNoneMatch(c[1..], source);
      assert c == [c[0]] + c[1..];
    }
  }

  /** `clear_all_documents`: every listed id is deleted and the collection is
      left empty; no delete call is made on an empty collection. */
  function ClearAll(store: Store): (r: Result<DeleteOutcome>)
    ensures store.Err? ==> r == Err(store.error)
    ensures store.Ok? ==> r.Ok? && r.value.collection == []
    ensures r.Ok? ==> (r.value.deleted.None? <==> store.value == [])
    ensures r.Ok? && r.value.deleted.Some? ==> |r.value.deleted.value| == |store.value|
    ensures store.Ok? && store.value != [] ==> r.value.deleted == Some(Get(store.value).ids)
  {
    match store
    case Err(e) => Err(e)
    case Ok(c) =>
      var ids := Get(c).ids;
      if ids == [] then Ok(DeleteOutcome(c, None))
      else
        assert forall e :: e in c ==> e.id in ids by {
          forall e | e in c ensures e.id in ids {
            var i :| 0 <= i < |c| && c[i] == e;
            assert ids[i] == e.id;
          }
        }
        RemoveEveryId(c, ids);
        Ok(DeleteOutcome(RemoveIds(c, ids), Some(ids)))
  }

  lemma {:induction false} RemoveEveryId(c: Collection, ids: seq<string>)
    requires forall e :: e in c ==> e.id in ids
    ensures RemoveIds(c, ids) == []
    decreases |c|
  {
    if |c| > 0 {
      assert c[0] in c;
      assert forall e :: e in c[1..] ==> e in c;
      RemoveEveryId(c[1..], ids);
    }
  }
}
