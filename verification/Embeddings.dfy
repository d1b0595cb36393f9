/** app/rag/embeddings.py: batch embedding around the shared cache. */
module Embeddings {
  import opened Values
  import opened CacheService

  /** The pointwise embedding of a batch. */
  function Embedded(texts: seq<string>, embed: string -> Json): seq<Json> {
    seq(|texts|, i requires 0 <= i < |texts| => embed(texts[i]))
  }

  /** Vectors are the only thing stored under the key of a text. */
  ghost predicate StoresVectors(cache: Cache, embed: string -> Json, keyOf: string -> string, text: string) {
    && embed(text).JArray?
    && cache.allowed(keyOf(text), embed(text), false)
    && cache.Determined(keyOf(text), embed(text), false)
  }

  /** A write of some text's vector under that text's key. */
  ghost predicate IsVectorWrite(w: (string, Text), texts: seq<string>, embed: string -> Json, keyOf: string -> string) {
    exists i :: 0 <= i < |texts| && w == (keyOf(texts[i]), WriteText(embed(texts[i]), false))
  }

  ghost predicate StoresAll(cache: Cache, texts: seq<string>, embed: string -> Json, keyOf: string -> string) {
    forall i | 0 <= i < |texts| :: StoresVectors(cache, embed, keyOf, texts[i])
  }

  /** The slots that are still open are exactly those to be filled from the missing texts. */
  predicate Pending(
    texts: seq<string>, embed: string -> Json, results: seq<Option<Json>>, indices: seq<nat>, missing: seq<string>)
  {
    && |results| == |texts| && |indices| == |missing|
    && (forall j | 0 <= j < |indices| :: indices[j] < |texts| && missing[j] == texts[indices[j]])
    && forall i | 0 <= i < |texts| :: results[i] == Some(embed(texts[i])) || i in indices
  }

  /** The first loop: what the cache has. */
  method LookUpAll(cache: Cache, texts: seq<string>, embed: string -> Json, keyOf: string -> string)
    returns (results: seq<Option<Json>>, missingIndices: seq<nat>, missingTexts: seq<string>)
    requires cache.Valid() && StoresAll(cache, texts, embed, keyOf)
    modifies cache`values, cache`locks
    ensures cache.Valid() && Pending(texts, embed, results, missingIndices, missingTexts)
  {
    results, missingIndices, missingTexts := seq(|texts|, _ => None), [], [];
    for index := 0 to |texts|
      invariant cache.Valid() && |results| == |texts| && |missingIndices| == |missingTexts|
      invariant forall j | 0 <= j < |missingIndices| ::
        missingIndices[j] < index && missingTexts[j] == texts[missingIndices[j]]
      invariant forall i | 0 <= i < index :: results[i] == Some(embed(texts[i])) || i in missingIndices
    {
      var text := texts[index];
      assert StoresVectors(cache, embed, keyOf, text);
      var cached := cache.GetJsonLookup(keyOf(text));
      assert cached.hit ==> cached.value == embed(text);
      if cached.value == JNull {
        missingIndices := missingIndices + [index];
        missingTexts := missingTexts + [text];
      } else {
        results := results[index := Some(cached.value)];
      }
      cache.Interfere({});
    }
  }

  /** The second loop: what had to be generated, written back one by one. */
  method FillAll(cache: Cache, texts: seq<string>, embed: string -> Json, keyOf: string -> string,
                 found: seq<Option<Json>>, indices: seq<nat>, missing: seq<string>)
    returns (results: seq<Option<Json>>)
    requires cache.Valid() && StoresAll(cache, texts, embed, keyOf) && Pending(texts, embed, found, indices, missing)
    modifies cache`values, cache`locks, cache`writes
    ensures cache.Valid() && |results| == |texts|
    ensures forall i | 0 <= i < |texts| :: results[i] == Some(embed(texts[i]))
    ensures old(cache.writes) <= cache.writes
    ensures forall j | |old(cache.writes)| <= j < |cache.writes| :: IsVectorWrite(cache.writes[j], texts, embed, keyOf)
  {
    var generated := Embedded(missing, embed);
    results := found;
    for j := 0 to |missing|
      invariant cache.Valid() && old(cache.writes) <= cache.writes
      invariant forall m | |old(cache.writes)| <= m < |cache.writes| ::
        IsVectorWrite(cache.writes[m], texts, embed, keyOf)
      invariant Pending(texts, embed, results, indices[j..], missing[j..])
    {
      FilledSlot(texts, embed, results, indices[j..], missing[j..]);
      assert indices[j..][1..] == indices[j + 1..] && missing[j..][1..] == missing[j + 1..];
      results := results[indices[j] := Some(generated[j])];
      StoreVector(cache, texts, embed, keyOf, indices[j]);
      cache.Interfere({});
    }
  }

  /** Filling the first open slot leaves the others open. */
  lemma FilledSlot(
    texts: seq<string>, embed: string -> Json, results: seq<Option<Json>>, indices: seq<nat>, missing: seq<string>)
    requires Pending(texts, embed, results, indices, missing) && indices != []
    ensures Pending(texts, embed, results[indices[0] := Some(embed(missing[0]))], indices[1..], missing[1..])
  {
    assert indices == [indices[0]] + indices[1..];
  }

  method StoreVector(cache: Cache, texts: seq<string>, embed: string -> Json, keyOf: string -> string, i: nat)
    requires cache.Valid() && StoresAll(cache, texts, embed, keyOf) && i < |texts|
    modifies cache`values, cache`writes
    ensures cache.Valid() && old(cache.writes) <= cache.writes
    ensures forall j | |old(cache.writes)| <= j < |cache.writes| :: IsVectorWrite(cache.writes[j], texts, embed, keyOf)
  {
    assert StoresVectors(cache, embed, keyOf, texts[i]);
    ReadBackIff(embed(texts[i]), false);
    var _ := cache.SetJson(keyOf(texts[i]), WriteText(embed(texts[i]), false));
  }

  /** Any mix of hits, misses, duplicates and failed writes, with other callers in between:
      the answer is the pointwise embedding, in order. */
  method EmbedDocuments(cache: Cache, texts: seq<string>, embed: string -> Json, keyOf: string -> string)
    returns (vectors: seq<Json>)
    requires cache.Valid() && StoresAll(cache, texts, embed, keyOf)
    modifies cache
    ensures cache.Valid()
    ensures vectors == Embedded(texts, embed)
    ensures old(cache.writes) <= cache.writes
    ensures forall j | |old(cache.writes)| <= j < |cache.writes| :: IsVectorWrite(cache.writes[j], texts, embed, keyOf)
  {
    var results, missingIndices, missingTexts := LookUpAll(cache, texts, embed, keyOf);
    if missingTexts != [] {
      results := FillAll(cache, texts, embed, keyOf, results, missingIndices, missingTexts);
    }
    vectors := [];
    for i := 0 to |results|
      invariant vectors == Embedded(texts, embed)[..i]
    {
      assert results[i] == Some(embed(texts[i]));
      if results[i].Some? { vectors := vectors + [results[i].value]; }
    }
  }
}
