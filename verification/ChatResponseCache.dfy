/** app/services/chat_response_cache.py, and the model call of app/agents/chat.py that uses it. */
module ChatResponseCache {
  import opened Values
  import opened CacheService

  const CACHE_BINARY_FIELD_NAMES := {"base64", "data", "file_data"}
  const CACHE_LARGE_STRING_MIN_CHARS := 1_024
  const CACHE_HASHED_STRING_MARKER := "__hy_chat_hashed_string__"
  const CHAT_RESPONSE_CACHE_VERSION := "v1"

  /** Arbitrary digests, of a text and of a whole key tree; injectivity is a hypothesis where it is used. */
  const TextDigest: string -> string
  const TreeDigest: Json -> string

  ghost predicate InjectiveDigests() {
    && (forall s, t | TextDigest(s) == TextDigest(t) :: s == t)
    && (forall j, k | TreeDigest(j) == TreeDigest(k) :: j == k)
  }

  function HashedString(s: string): Json {
    JObject(map[CACHE_HASHED_STRING_MARKER := JBool(true), "sha256" := JStr(TextDigest(s)), "chars" := JInt(|s|)])
  }

  function TextPayload(s: string, field: Option<string>): Json {
    if (field.Some? && field.value in CACHE_BINARY_FIELD_NAMES) || |s| >= CACHE_LARGE_STRING_MIN_CHARS
    then HashedString(s) else JStr(s)
  }

  /** `_cache_key_payload`. */
  function KeyPayload(v: Value, field: Option<string>): Json
    decreases v, 1
  {
    match v
    case Str(s) => TextPayload(s, field)
    case Other(text) => TextPayload(text, field)
    case Dict(es) => JObject(KeyFields(es))
    case Model(es) => JObject(KeyFields(es))
    case List(items) => JArray(seq(|items|, i requires 0 <= i < |items| => KeyPayload(items[i], None)))
    case Null => JNull
    case Bool(b) => JBool(b)
    case Int(n) => JInt(n)
    case Float(text) => JFloat(text)
  }

  function KeyFields(es: seq<Field>): map<string, Json>
    decreases es, 0
  {
    if es == [] then map[]
    else
      var last := es[|es| - 1];
      KeyFields(es[..|es| - 1])[last.key := KeyPayload(last.val, Some(last.key))]
  }

  /** The same payload read off the canonical tree. */
  function TreePayload(j: Json, field: Option<string>): Json {
    match j
    case JStr(s) => TextPayload(s, field)
    case JObject(m) => JObject(map k | k in m :: TreePayload(m[k], Some(k)))
    case JArray(items) => JArray(seq(|items|, i requires 0 <= i < |items| => TreePayload(items[i], None)))
    case _ => j
  }

  lemma {:induction false} PayloadOfCanon(v: Value, field: Option<string>)
    ensures KeyPayload(v, field) == TreePayload(Canon(v), field)
    decreases v, 1
  {
    match v
    case Dict(es) => FieldsOfCanon(es);
    case Model(es) => FieldsOfCanon(es);
    case List(items) =>
      forall i | 0 <= i < |items| ensures KeyPayload(items[i], None) == TreePayload(Canon(items[i]), None) {
        PayloadOfCanon(items[i], None);
      }
      assert KeyPayload(v, field).items == TreePayload(Canon(v), field).items;
    case _ =>
  }

  lemma {:induction false} FieldsOfCanon(es: seq<Field>)
    ensures KeyFields(es) == TreePayload(JObject(CanonFields(es)), None).fields
    decreases es, 0
  {
    if es != [] {
      FieldsOfCanon(es[..|es| - 1]);
      PayloadOfCanon(es[|es| - 1].val, Some(es[|es| - 1].key));
    }
  }

  /** No object of the tree uses the marker as a field name. */
  predicate MarkerFree(j: Json) {
    match j
    case JObject(m) => CACHE_HASHED_STRING_MARKER !in m && forall k | k in m :: MarkerFree(m[k])
    case JArray(items) => forall i | 0 <= i < |items| :: MarkerFree(items[i])
    case _ => true
  }

  lemma {:induction false} TreePayloadInjective(a: Json, b: Json, field: Option<string>)
    requires InjectiveDigests() && MarkerFree(a) && MarkerFree(b)
    requires TreePayload(a, field) == TreePayload(b, field)
    ensures a == b
    decreases a
  {
    match a
    case JStr(s) => TextAgainst(s, b, field);
    case JObject(m) =>
      if b.JStr? { TextAgainst(b.s, a, field); }
      else {
        var pa, pb := TreePayload(a, field).fields, TreePayload(b, field).fields;
        assert pa.Keys == m.Keys && pb.Keys == b.fields.Keys;
        forall k | k in m ensures m[k] == b.fields[k] {
          assert pa[k] == pb[k];
          TreePayloadInjective(m[k], b.fields[k], Some(k));
        }
      }
    case JArray(items) =>
      if b.JStr? { TextAgainst(b.s, a, field); }
      else {
        forall i | 0 <= i < |items| ensures items[i] == b.items[i] {
          assert TreePayload(a, field).items[i] == TreePayload(b, field).items[i];
          TreePayloadInjective(items[i], b.items[i], None);
        }
        assert items == b.items;
      }
    case _ =>
      if b.JStr? {
        var s := b.s;
        assert TextPayload(s, field) != a;
      }
  }

  /** A text's payload is never that of another text, nor of an object without the marker. */
  lemma TextAgainst(s: string, b: Json, field: Option<string>)
    requires InjectiveDigests() && MarkerFree(b) && TextPayload(s, field) == TreePayload(b, field)
    ensures b == JStr(s)
  {
    if TextPayload(s, field) == HashedString(s) {
      assert CACHE_HASHED_STRING_MARKER in HashedString(s).fields;
      HashReads(s);
      if b.JStr? { HashReads(b.s); }
    }
  }

  lemma HashReads(s: string)
    ensures "sha256" in HashedString(s).fields && HashedString(s).fields["sha256"] == JStr(TextDigest(s))
  {
    assert "sha256"[0] == 's' && "chars"[0] == 'c';
  }

  /** Assuming injective digests, key payloads separate canonical trees: equal exactly on equal trees. */
  lemma KeyPayloadInjectiveIff(v: Value, w: Value, field: Option<string>)
    requires InjectiveDigests() && MarkerFree(Canon(v)) && MarkerFree(Canon(w))
    ensures KeyPayload(v, field) == KeyPayload(w, field) <==> Canon(v) == Canon(w)
  {
    PayloadOfCanon(v, field);
    PayloadOfCanon(w, field);
    if KeyPayload(v, field) == KeyPayload(w, field) { TreePayloadInjective(Canon(v), Canon(w), field); }
  }

  /** A tree that uses the marker can pass for a long text. */
  lemma MarkerTreesCollide(s: string)
    requires |s| >= CACHE_LARGE_STRING_MIN_CHARS && |TextDigest(s)| < CACHE_LARGE_STRING_MIN_CHARS
    ensures var forged := HashedString(s); TreePayload(forged, None) == TreePayload(JStr(s), None) && forged != JStr(s)
  {
    var forged := HashedString(s);
    assert forall k | k in forged.fields :: k !in CACHE_BINARY_FIELD_NAMES by {
      assert "base64"[0] == 'b' && "data"[0] == 'd' && "file_data"[0] == 'f';
      assert CACHE_HASHED_STRING_MARKER[0] == '_' && "sha256"[0] == 's' && "chars"[0] == 'c';
    }
    HashReads(s);
    forall k | k in forged.fields ensures TreePayload(forged.fields[k], Some(k)) == forged.fields[k] {
      assert k == CACHE_HASHED_STRING_MARKER || k == "sha256" || k == "chars";
    }
    assert TreePayload(forged, None).fields == forged.fields;
  }

  // ---- Cache keys of whole requests --------------------------------------------------------

  /** `toolCalls` is Null, `name` and `toolCallId` are empty, when the message has none. */
  datatype Message = Message(kind: string, content: Value, name: string, toolCalls: Value, toolCallId: string)

  predicate Truthy(v: Value) {
    match v
    case Null => false
    case List(items) => items != []
    case Dict(es) => es != []
    case Str(s) => s != ""
    case Bool(b) => b
    case Int(n) => n != 0
    case _ => true
  }

  function MessagePayload(m: Message): Json {
    var p := map["type" := JStr(m.kind), "content" := KeyPayload(m.content, None)];
    var p1 := if m.name != "" then p["name" := JStr(m.name)] else p;
    var p2 := if Truthy(m.toolCalls) then p1["tool_calls" := KeyPayload(m.toolCalls, None)] else p1;
    var p3 := if m.toolCallId != "" then p2["tool_call_id" := JStr(m.toolCallId)] else p2;
    JObject(p3)
  }

  datatype Request = Request(user: string, model: string, system: Option<Message>, messages: seq<Message>, extra: Json)

  function KeyTree(r: Request): Json {
    JArray([
      JStr(CHAT_RESPONSE_CACHE_VERSION), JStr(r.user), JStr(r.model),
      if r.system.Some? then MessagePayload(r.system.value) else JNull,
      JArray(seq(|r.messages|, i requires 0 <= i < |r.messages| => MessagePayload(r.messages[i]))),
      r.extra
    ])
  }

  /** `build_cache_key`: no key without a user. */
  function BuildCacheKey(r: Request): Option<string> {
    if r.user == "" then None else Some("chat:graph_response:" + TreeDigest(KeyTree(r)))
  }

  predicate PlainMessage(m: Message) { MarkerFree(Canon(m.content)) && MarkerFree(Canon(m.toolCalls)) }

  /** What the cached answer may depend on. */
  predicate SameMessage(a: Message, b: Message) {
    && a.kind == b.kind && Canon(a.content) == Canon(b.content) && a.name == b.name && a.toolCallId == b.toolCallId
    && Truthy(a.toolCalls) == Truthy(b.toolCalls)
    && (Truthy(a.toolCalls) ==> Canon(a.toolCalls) == Canon(b.toolCalls))
  }

  lemma FieldNamesDiffer()
    ensures "type" != "content" && "type" != "name" && "type" != "tool_calls" && "type" != "tool_call_id"
    ensures "content" != "name" && "content" != "tool_calls" && "content" != "tool_call_id"
    ensures "name" != "tool_calls" && "name" != "tool_call_id" && "tool_calls" != "tool_call_id"
  {
    assert "type"[1] == 'y' && "tool_calls"[1] == 'o' && "tool_call_id"[1] == 'o';
    assert "content"[0] == 'c' && "name"[0] == 'n';
    assert |"tool_calls"| == 10 && |"tool_call_id"| == 12;
  }

  lemma MessageReads(m: Message)
    ensures var f := MessagePayload(m).fields;
      && "type" in f && f["type"] == JStr(m.kind)
      && "content" in f && f["content"] == KeyPayload(m.content, None)
      && ("name" in f <==> m.name != "") && ("name" in f ==> f["name"] == JStr(m.name))
      && ("tool_calls" in f <==> Truthy(m.toolCalls))
      && ("tool_calls" in f ==> f["tool_calls"] == KeyPayload(m.toolCalls, None))
      && ("tool_call_id" in f <==> m.toolCallId != "")
      && ("tool_call_id" in f ==> f["tool_call_id"] == JStr(m.toolCallId))
  {
    FieldNamesDiffer();
  }

  lemma MessagesSeparate(a: Message, b: Message)
    requires InjectiveDigests() && PlainMessage(a) && PlainMessage(b) && MessagePayload(a) == MessagePayload(b)
    ensures SameMessage(a, b)
  {
    MessageReads(a);
    MessageReads(b);
    KeyPayloadInjectiveIff(a.content, b.content, None);
    if Truthy(a.toolCalls) { KeyPayloadInjectiveIff(a.toolCalls, b.toolCalls, None); }
  }

  predicate PlainRequest(r: Request) {
    && (r.system.Some? ==> PlainMessage(r.system.value))
    && forall i | 0 <= i < |r.messages| :: PlainMessage(r.messages[i])
  }

  predicate SameRequest(a: Request, b: Request) {
    && a.user == b.user && a.model == b.model && a.extra == b.extra
    && a.system.Some? == b.system.Some? && (a.system.Some? ==> SameMessage(a.system.value, b.system.value))
    && |a.messages| == |b.messages| && forall i | 0 <= i < |a.messages| :: SameMessage(a.messages[i], b.messages[i])
  }

  /** Two requests that share a key are by the same user, of the same model, with the same messages. */
  lemma KeysSeparateRequests(a: Request, b: Request)
    requires InjectiveDigests() && PlainRequest(a) && PlainRequest(b)
    requires BuildCacheKey(a).Some? && BuildCacheKey(a) == BuildCacheKey(b)
    ensures SameRequest(a, b)
  {
    var prefix := "chat:graph_response:";
    assert (prefix + TreeDigest(KeyTree(a)))[|prefix|..] == TreeDigest(KeyTree(a));
    assert (prefix + TreeDigest(KeyTree(b)))[|prefix|..] == TreeDigest(KeyTree(b));
    var ta, tb := KeyTree(a).items, KeyTree(b).items;
    assert ta == tb;
    assert ta[1] == tb[1] && ta[2] == tb[2] && ta[3] == tb[3] && ta[4] == tb[4] && ta[5] == tb[5];
    if a.system.Some? { MessagesSeparate(a.system.value, b.system.value); }
    assert |ta[4].items| == |a.messages| && |tb[4].items| == |b.messages|;
    forall i | 0 <= i < |a.messages| ensures SameMessage(a.messages[i], b.messages[i]) {
      assert ta[4].items[i] == MessagePayload(a.messages[i]);
      assert tb[4].items[i] == MessagePayload(b.messages[i]);
      MessagesSeparate(a.messages[i], b.messages[i]);
    }
  }

  // ---- Responses ---------------------------------------------------------------------------

  /** One message of a model response, as far as caching looks at it. */
  datatype Reply = Reply(isAI: bool, text: Option<string>, hasToolCalls: bool)

  datatype Response = Response(result: seq<Reply>, structured: bool)

  function CacheableContent(r: Response): Option<string> {
    if r.structured || |r.result| != 1 then None
    else
      var m := r.result[0];
      if !m.isAI || m.hasToolCalls then None
      else if m.text.Some? && m.text.value != "" then m.text else None
  }

  function StoredResponse(content: string): Json { JObject(map["content" := JStr(content)]) }

  /** `_cached_response_from_value`. */
  function CachedResponse(j: Json): Option<Response> {
    if j.JObject? && "content" in j.fields && j.fields["content"].JStr? && j.fields["content"].s != ""
    then Some(Response([Reply(true, Some(j.fields["content"].s), false)], false))
    else None
  }

  /** A cacheable response is read back with the same content, and is again cacheable. */
  lemma StoredIsReadBack(r: Response)
    requires CacheableContent(r).Some?
    ensures var text := Document(StoredResponse(CacheableContent(r).value));
      && ReadText(text) == Lookup(true, StoredResponse(CacheableContent(r).value), false, false, false)
      && CachedResponse(ReadText(text).value).Some?
      && CacheableContent(CachedResponse(ReadText(text).value).value) == CacheableContent(r)
  {
    var j := StoredResponse(CacheableContent(r).value);
    assert NEGATIVE_CACHE_MARKER[0] == '_' && "content"[0] == 'c';
    assert NEGATIVE_CACHE_MARKER !in j.fields;
  }

  /** How the model call ended, as far as the lock and the handler are concerned. */
  datatype Ending = FromCache(r: Response) | Produced(r: Response) | RefusedByPolicy | Raised

  /** What the handler did once it was called: `Violated` and `Failed` also when the accounting of its response
      raises, with or without a PolicyViolation. */
  datatype Handling = Answered(r: Response) | Violated | Failed

  /** A response some handler has stored under this key. */
  ghost predicate StoredFor(cache: Cache, key: string, r: Response) {
    exists j, n :: cache.allowed(key, j, n) && CachedResponse(j) == Some(r)
  }

  /** `j` is what is stored of the response `r` that a handler gave to the request `q`. */
  predicate IsAnswer(q: Request, r: Response, key: string, j: Json) {
    && PlainRequest(q) && BuildCacheKey(q) == Some(key)
    && CacheableContent(r).Some? && j == StoredResponse(CacheableContent(r).value)
  }

  /** Response keys are written by `store_response` only: an entry is the answer to some request with that key. */
  ghost predicate StoresAnswers(cache: Cache, answers: (Request, Response) -> bool) {
    forall key, j, n | cache.allowed(key, j, n) :: exists q, r :: answers(q, r) && IsAnswer(q, r, key, j)
  }

  /** So the content of a hit was given to a request of the same user and model, with the same messages. */
  lemma HitAnswersSameRequest(cache: Cache, answers: (Request, Response) -> bool, q: Request, hit: Response)
    returns (p: Request, r: Response)
    requires InjectiveDigests() && PlainRequest(q) && BuildCacheKey(q).Some?
    requires StoresAnswers(cache, answers) && StoredFor(cache, BuildCacheKey(q).value, hit)
    ensures answers(p, r) && SameRequest(p, q) && CacheableContent(hit) == CacheableContent(r)
  {
    hide SameRequest, PlainRequest, BuildCacheKey;
    var key := BuildCacheKey(q).value;
    var j, n :| cache.allowed(key, j, n) && CachedResponse(j) == Some(hit);
    p, r :| answers(p, r) && IsAnswer(p, r, key, j);
    KeysSeparateRequests(p, q);
  }

  /** What a produced response writes. */
  function Stores(key: Option<string>, r: Response): seq<(string, Text)> {
    if key.Some? && CacheableContent(r).Some?
    then [(key.value, Document(StoredResponse(CacheableContent(r).value)))]
    else []
  }

  /** `wrap_model_call` after its preparation. A hit answers with a response stored for the same key, a produced
      response is stored if it is cacheable, and every lock that was granted is released by one attempt.
      `accounted` says whether the accounting of a hit would succeed. */
  method WrapModelCall(cache: Cache, key: Option<string>, admitted: bool, accounted: bool, handling: Handling,
                       lockTtl: nat, wait: nat, poll: nat)
    returns (ending: Ending)
    requires cache.Valid()
    requires key.Some? && handling.Answered? && CacheableContent(handling.r).Some? ==>
      cache.allowed(key.value, StoredResponse(CacheableContent(handling.r).value), false)
    modifies cache
    ensures cache.Valid()
    ensures cache.Balanced(old(cache.acquired), old(cache.attempts))
    ensures key.None? ==> cache.acquired == old(cache.acquired)
    ensures key.None? || !cache.enabled ==> ending == Uncached(admitted, handling)
    ensures ending.FromCache? || ending == Uncached(admitted, handling) || (ending.Raised? && !accounted)
    ensures ending.FromCache? ==> accounted && key.Some? && StoredFor(cache, key.value, ending.r)
    ensures cache.writes == old(cache.writes) + if ending.Produced? && cache.enabled then Stores(key, ending.r) else []
  {
    var lock;
    ending, lock := CallUnderLock(cache, key, admitted, accounted, handling, lockTtl, wait, poll);
    var _ := cache.ReleaseLock(lock);
  }

  /** How a call ends that finds no cached response. */
  function Uncached(admitted: bool, handling: Handling): Ending {
    if !admitted then RefusedByPolicy
    else match handling
      case Answered(r) => Produced(r)
      case Violated => RefusedByPolicy
      case Failed => Raised
  }

  function Hit(r: Response, accounted: bool): Ending { if accounted then FromCache(r) else Raised }

  method CallUnderLock(cache: Cache, key: Option<string>, admitted: bool, accounted: bool, handling: Handling,
                       lockTtl: nat, wait: nat, poll: nat)
    returns (ending: Ending, lock: Option<CacheLock>)
    requires cache.Valid()
    requires key.Some? && handling.Answered? && CacheableContent(handling.r).Some? ==>
      cache.allowed(key.value, StoredResponse(CacheableContent(handling.r).value), false)
    modifies cache`values, cache`locks, cache`writes, cache`acquired
    ensures cache.Valid()
    ensures lock.Some? ==> key.Some? && cache.enabled
    ensures cache.acquired == old(cache.acquired) + if lock.Some? then [lock.value] else []
    ensures key.None? || !cache.enabled ==> ending == Uncached(admitted, handling)
    ensures ending.FromCache? || ending == Uncached(admitted, handling) || (ending.Raised? && !accounted)
    ensures ending.FromCache? ==> accounted && key.Some? && StoredFor(cache, key.value, ending.r)
    ensures cache.writes == old(cache.writes) + if ending.Produced? && cache.enabled then Stores(key, ending.r) else []
  {
    lock := None;
    if key.Some? {
      var lookup := cache.GetJsonLookup(key.value);
      var cached := CachedResponse(lookup.value);
      if cached.Some? { return Hit(cached.value, accounted), None; }
      cache.Interfere({});
      lock := cache.AcquireLock(key.value, lockTtl);
      if lock.None? {
        lookup := cache.WaitForJson(key.value, wait, poll);
        cached := CachedResponse(lookup.value);
        if lookup.hit && cached.Some? { return Hit(cached.value, accounted), None; }
      } else {
        cache.Interfere({lock.value.token});
        lookup := cache.GetJsonLookup(key.value);
        cached := CachedResponse(lookup.value);
        if cached.Some? { return Hit(cached.value, accounted), lock; }
      }
    }
    if !admitted || !handling.Answered? { return Uncached(admitted, handling), lock; }
    cache.Interfere(if lock.Some? then {lock.value.token} else {});
    var content := CacheableContent(handling.r);
    if key.Some? && content.Some? {
      StoredIsReadBack(handling.r);
      var _ := cache.SetJson(key.value, Document(StoredResponse(content.value)));
    }
    ending := Produced(handling.r);
  }
}
