/** app/rag/service.py: document ingestion, search and deletion around a cache of search results. */
module Rag {
  import opened Values
  import opened CacheService

  datatype Status = Processing | Ready | Failed

  datatype Chunk = Chunk(content: string, vector: Json)

  datatype KnowledgeDocument = KnowledgeDocument(user: Option<string>, sha256: string, filename: string,
                                                 status: Status, chunks: seq<Chunk>)

  type Documents = map<nat, KnowledgeDocument>

  /** What the digest of a search covers. */
  datatype Query = Query(user: Option<string>, text: string, limit: nat, ids: seq<nat>)

  /** The ordered rows of the `limit` chunks nearest to a text: any function of the documents it may see. */
  const Nearest: (Documents, string, nat) -> seq<Json>

  predicate Sees(q: Query, id: nat, d: KnowledgeDocument) {
    && d.status == Ready
    && (q.user.Some? && q.user.value != "" ==> d.user == q.user)
    && (q.ids != [] ==> id in q.ids)
  }

  function Visible(docs: Documents, q: Query): Documents {
    map id | id in docs && Sees(q, id, docs[id]) :: docs[id]
  }

  /** `run_search`, straight from the database. */
  function Direct(docs: Documents, q: Query): Json { JArray(Nearest(Visible(docs, q), q.text, q.limit)) }

  function Limit(topK: Option<nat>, default: nat): nat {
    var asked := if topK.Some? && topK.value != 0 then topK.value else default;
    var capped := if asked > 20 then 20 else asked;
    if capped < 1 then 1 else capped
  }

  /** A change that no search can see leaves every direct answer as it was. */
  lemma UnseenChange(a: Documents, b: Documents, q: Query)
    requires forall id | id in a && a[id].status == Ready :: id in b && b[id] == a[id]
    requires forall id | id in b && b[id].status == Ready :: id in a && a[id] == b[id]
    ensures Direct(a, q) == Direct(b, q)
  {
    assert Visible(a, q) == Visible(b, q);
  }

  predicate SameFile(d: KnowledgeDocument, user: Option<string>,
                     sha256: string) { d.user == user && d.sha256 == sha256 }

  /** No user has two documents with the same content. */
  ghost predicate Unique(docs: Documents) {
    forall a, b | a in docs && b in docs && SameFile(docs[a], docs[b].user, docs[b].sha256) :: a == b
  }

  /** A failed document of the same content gives way to the new one. */
  lemma ReplacedIsUnique(docs: Documents, failed: Option<nat>, id: nat, d: KnowledgeDocument)
    requires Unique(docs) && id !in docs
    requires forall a | a in docs && SameFile(docs[a], d.user, d.sha256) :: failed == Some(a)
    ensures Unique((if failed.Some? then docs - {failed.value} else docs)[id := d])
  {
  }

  predicate Finds(docs: Documents, found: Option<nat>, user: Option<string>, sha256: string) {
    if found.Some? then found.value in docs && SameFile(docs[found.value], user, sha256)
    else forall id | id in docs :: !SameFile(docs[id], user, sha256)
  }

  lemma OnlyMatch(docs: Documents, found: Option<nat>, user: Option<string>, sha256: string)
    requires Unique(docs) && Finds(docs, found, user, sha256)
    ensures forall id | id in docs && SameFile(docs[id], user, sha256) :: found == Some(id)
  {
  }

  predicate IsEmpty(j: Json) { j == JArray([]) }

  /** Every cached search reads as a direct search of these documents. */
  ghost predicate Tells(docs: Documents, cache: map<Query, Text>) {
    forall q | q in cache :: ReadText(cache[q]) == Lookup(true, Direct(docs, q), IsEmpty(Direct(docs, q)), false, false)
  }

  lemma UnseenKeeps(a: Documents, b: Documents, cache: map<Query, Text>)
    requires Tells(a, cache)
    requires forall id | id in a && a[id].status == Ready :: id in b && b[id] == a[id]
    requires forall id | id in b && b[id].status == Ready :: id in a && a[id] == b[id]
    ensures Tells(b, cache)
  {
    forall q | q in cache ensures Direct(b, q) == Direct(a, q) { UnseenChange(a, b, q); }
  }

  datatype Ingestion = Existing(id: nat) | Stored(id: nat) | Broken(id: nat)

  class RagService {
    var docs: Documents
    var cache: map<Query, Text>

    constructor ()
      ensures docs == map[] && cache == map[]
    {
      docs, cache := map[], map[];
    }

    ghost predicate Coherent()
      reads this
    {
      Unique(docs) && Tells(docs, cache)
    }

    /** `load` is what loading, splitting and embedding the file yields: nothing when one of them raises, and
        then `partial` are the chunk rows that were added before. */
    method IngestFile(user: Option<string>, sha256: string, filename: string, load: Option<seq<Chunk>>,
                      partial: seq<Chunk>)
      returns (r: Ingestion)
      requires Coherent()
      modifies this
      ensures Coherent()
      ensures r.Existing? <==>
        exists id :: id in old(docs) && SameFile(old(docs)[id], user, sha256) && old(docs)[id].status != Failed
      ensures r.Stored? ==> cache == map[]
      ensures r.Broken? ==> cache == old(cache)
      ensures r.id in docs && SameFile(docs[r.id], user, sha256)
      ensures r.Existing? ==> docs == old(docs) && cache == old(cache) && docs[r.id].status != Failed
      ensures !r.Existing? ==> r.id !in old(docs)
      ensures r.Stored? ==> load.Some? && docs[r.id] == KnowledgeDocument(user, sha256, filename, Ready, load.value)
      ensures r.Broken? ==> load.None? && docs[r.id] == KnowledgeDocument(user, sha256, filename, Failed, partial)
      ensures forall id | id in docs && !(r.id == id && !r.Existing?) :: id in old(docs) && docs[id] == old(docs)[id]
      ensures forall id | id in old(docs) && id !in docs :: old(docs)[id].status == Failed
    {
      hide Direct, ReadText, Unique;
      var before := docs;
      var found := FindDocument(docs, user, sha256);
      OnlyMatch(docs, found, user, sha256);
      if found.Some? {
        if docs[found.value].status != Failed { return Existing(found.value); }
        docs := docs - {found.value};
      }
      var newId := FreshId(before);
      docs := docs[newId := KnowledgeDocument(user, sha256, filename, Processing, [])];
      if load.None? {
        docs := docs[newId := docs[newId].(status := Failed, chunks := partial)];
        ReplacedIsUnique(before, found, newId, docs[newId]);
        assert docs == (if found.Some? then before - {found.value} else before)[newId := docs[newId]];
        UnseenKeeps(before, docs, cache);
        return Broken(newId);
      }
      docs := docs[newId := docs[newId].(status := Ready, chunks := load.value)];
      ReplacedIsUnique(before, found, newId, docs[newId]);
      assert docs == (if found.Some? then before - {found.value} else before)[newId := docs[newId]];
      cache := map[];
      r := Stored(newId);
    }

    method DeleteDocument(user: Option<string>, id: nat) returns (deleted: bool)
      requires Coherent()
      modifies this
      ensures Coherent()
      ensures deleted <==> id in old(docs) && old(docs)[id].user == user
      ensures docs == if deleted then old(docs) - {id} else old(docs)
      ensures cache == if deleted then map[] else old(cache)
    {
      if id !in docs || docs[id].user != user { return false; }
      docs := docs - {id};
      cache := map[];
      deleted := true;
    }

    /** A search, cached or not, answers what the database would answer now. */
    method Search(user: Option<string>, text: string, topK: Option<nat>, default: nat, ids: seq<nat>)
      returns (rows: Json)
      requires Coherent()
      modifies this`cache
      ensures Coherent()
      ensures rows == Direct(docs, Query(user, text, Limit(topK, default), ids))
      ensures var q := Query(user, text, Limit(topK, default), ids);
        cache == if q in old(cache) then old(cache) else old(cache)[q := WriteText(rows, IsEmpty(rows))]
    {
      var q := Query(user, text, Limit(topK, default), ids);
      if q in cache {
        var lookup := ReadText(cache[q]);
        if lookup.hit { return lookup.value; }
      }
      rows := Direct(docs, q);
      ReadBackIff(rows, IsEmpty(rows));
      cache := cache[q := WriteText(rows, IsEmpty(rows))];
    }

    /** Entries may expire at any time. */
    method Expire(q: Query)
      requires Coherent()
      modifies this`cache
      ensures Coherent() && cache == old(cache) - {q}
    {
      cache := cache - {q};
    }
  }

  method FindDocument(docs: Documents, user: Option<string>, sha256: string) returns (found: Option<nat>)
    ensures Finds(docs, found, user, sha256)
  {
    found := None;
    if exists id | id in docs :: SameFile(docs[id], user, sha256) {
      var id :| id in docs && SameFile(docs[id], user, sha256);
      found := Some(id);
    }
  }

  method FreshId(docs: Documents) returns (id: nat)
    ensures id !in docs
  {
    id := 0;
    var rest := docs.Keys;
    while id in docs
      invariant rest <= docs.Keys
      invariant forall k | k in docs && k >= id :: k in rest
      decreases rest
    {
      rest := rest - {id};
      id := id + 1;
    }
  }
}
