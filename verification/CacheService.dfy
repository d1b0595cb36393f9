/** app/cache/service.py: a JSON cache on a Redis server that may fail, expire and be shared at any moment. */
module CacheService {
  import opened Values

  const NEGATIVE_CACHE_MARKER := "__hy_chat_negative_cache__"

  /** A stored text: a JSON document, or something json.loads rejects. */
  datatype Text = Document(value: Json) | Garbled

  /** `value` is JNull for Python's None. */
  datatype Lookup = Lookup(hit: bool, value: Json, isNegative: bool, created: bool, error: bool)

  const Miss := Lookup(false, JNull, false, false, false)

  function NegativePayload(v: Json): Json { JObject(map[NEGATIVE_CACHE_MARKER := JBool(true), "value" := v]) }

  function UnwrapNegative(j: Json): Option<Json> {
    if j.JObject? && NEGATIVE_CACHE_MARKER in j.fields && j.fields[NEGATIVE_CACHE_MARKER] == JBool(true)
       && j.fields.Keys <= {NEGATIVE_CACHE_MARKER, "value"}
    then Some(if "value" in j.fields then j.fields["value"] else JNull)
    else None
  }

  function ReadText(t: Text): Lookup {
    match t
    case Garbled => Miss
    case Document(j) =>
      var negative := UnwrapNegative(j);
      if negative.Some? then Lookup(true, negative.value, true, false, false) else Lookup(true, j, false, false, false)
  }

  /** What get_or_set_json writes for a produced value. */
  function WriteText(v: Json, negative: bool): Text { Document(if negative then NegativePayload(v) else v) }

  /** A written value is read back as it was produced, exactly unless it poses as a negative entry itself. */
  lemma ReadBackIff(v: Json, negative: bool)
    ensures ReadText(WriteText(v, negative)) == Lookup(true, v, negative, false, false)
      <==> negative || UnwrapNegative(v).None?
  {
    var p := NegativePayload(v);
    assert "value"[0] == 'v' && NEGATIVE_CACHE_MARKER[0] == '_';
    assert p.fields["value"] == v;
  }

  // ---- Locks: SET NX EX and compare-and-delete ---------------------------------------------

  datatype Lease = Lease(token: nat, expires: nat)

  /** `held` may still list a lease that has expired; the server treats it as absent. */
  datatype Locks = Locks(held: map<string, Lease>, now: nat, nextToken: nat)

  predicate Alive(l: Locks, key: string) { key in l.held && l.now < l.held[key].expires }

  predicate Holds(l: Locks, key: string, token: nat) { Alive(l, key) && l.held[key].token == token }

  function Acquire(l: Locks, key: string, ttl: nat): (Locks, Option<nat>) {
    var token := l.nextToken;
    var later := l.(nextToken := token + 1);
    if Alive(l, key) then (later, None)
    else (later.(held := l.held[key := Lease(token, l.now + ttl)]), Some(token))
  }

  function Release(l: Locks, key: string, token: nat): (Locks, bool) {
    if Holds(l, key, token) then (l.(held := l.held - {key}), true) else (l, false)
  }

  datatype LockStep = Take(key: string, ttl: nat) | Give(key: string, token: nat) | Tick(seconds: nat)

  function Apply(l: Locks, s: LockStep): Locks {
    match s
    case Take(key, ttl) => Acquire(l, key, ttl).0
    case Give(key, token) => Release(l, key, token).0
    case Tick(n) => l.(now := l.now + n)
  }

  function Run(l: Locks, steps: seq<LockStep>): Locks
    decreases |steps|
  {
    if steps == [] then l else Apply(Run(l, steps[..|steps| - 1]), steps[|steps| - 1])
  }

  /** Tokens in use were issued before. */
  ghost predicate Issued(l: Locks) { forall k | k in l.held :: l.held[k].token < l.nextToken }

  lemma {:induction false} RunIssued(l: Locks, steps: seq<LockStep>)
    requires Issued(l)
    ensures Issued(Run(l, steps)) && l.nextToken <= Run(l, steps).nextToken && l.now <= Run(l, steps).now
    decreases |steps|
  {
    if steps != [] { RunIssued(l, steps[..|steps| - 1]); }
  }

  predicate Released(steps: seq<LockStep>, key: string, token: nat) { Give(key, token) in steps }

  /** A lease lives exactly until it expires or its own holder gives it back: nothing anybody else does,
      not even a former holder of the same key, ends it early, and nothing brings it back. */
  lemma {:induction false} LeaseLifetime(l: Locks, key: string, token: nat, steps: seq<LockStep>)
    requires Issued(l) && Holds(l, key, token)
    ensures Holds(Run(l, steps), key, token) <==>
      Run(l, steps).now < l.held[key].expires && !Released(steps, key, token)
    ensures var end := Run(l, steps);
      key in end.held && end.held[key].token == token ==> end.held[key] == l.held[key]
    decreases |steps|
  {
    if steps != [] {
      var front, last := steps[..|steps| - 1], steps[|steps| - 1];
      LeaseLifetime(l, key, token, front);
      RunIssued(l, front);
      assert Released(steps, key, token) <==> Released(front, key, token) || last == Give(key, token);
      assert Run(l, steps) == Apply(Run(l, front), last);
    }
  }

  lemma {:induction false} RunSplits(l: Locks, a: seq<LockStep>, b: seq<LockStep>)
    ensures Run(l, a + b) == Run(Run(l, a), b)
    decreases |b|
  {
    if b == [] {
      assert a + b == a;
    } else {
      assert (a + b)[..|a + b| - 1] == a + b[..|b| - 1];
      RunSplits(l, a, b[..|b| - 1]);
    }
  }

  /** The SET of step `i` asks for `key` and is granted. */
  predicate Grants(l: Locks, steps: seq<LockStep>, i: nat, key: string)
    requires i < |steps|
  {
    steps[i].Take? && steps[i].key == key && !Alive(Run(l, steps[..i]), key)
  }

  /** Mutual exclusion over runs: between two grants of a key the first lease has expired, or its own token was
      given back. Nothing else anybody does makes the second grant possible. */
  lemma GrantsExclude(l: Locks, key: string, steps: seq<LockStep>, i: nat, j: nat)
    requires Issued(l) && i < j < |steps| && Grants(l, steps, i, key) && Grants(l, steps, j, key)
    ensures
      || Run(l, steps[..j]).now >= Run(l, steps[..i]).now + steps[i].ttl
      || Give(key, Run(l, steps[..i]).nextToken) in steps[i + 1..j]
  {
    var before, between := Run(l, steps[..i]), steps[i + 1..j];
    var token := before.nextToken;
    var granted := Apply(before, steps[i]);
    RunIssued(l, steps[..i]);
    assert steps[..j] == steps[..i] + [steps[i]] + between;
    assert steps[..i + 1] == steps[..i] + [steps[i]];
    assert (steps[..i] + [steps[i]])[..i] == steps[..i];
    RunSplits(l, steps[..i] + [steps[i]], between);
    assert Run(l, steps[..i] + [steps[i]]) == granted;
    if steps[i].ttl > 0 {
      LeaseLifetime(granted, key, token, between);
    } else {
      RunIssued(granted, between);
    }
  }

  // ---- The service -------------------------------------------------------------------------

  datatype Entry = Entry(text: Text, expires: nat)

  datatype CacheLock = CacheLock(key: string, token: nat)

  function LockKey(key: string): string { "cache:lock:" + key }

  /** How get_or_set_json ended: normally, or with the producer's exception. */
  datatype Answer = Returned(lookup: Lookup) | ProducerRaised

  /** Callers share one server. `allowed(key, value, negative)` says what the producers of a key may answer, and
      how the stored form of such an answer may read. Any Redis command may fail, with or without its effect, and
      others act between any two commands. */
  class Cache {
    var values: map<string, Entry>
    var locks: Locks
    const allowed: (string, Json, bool) -> bool
    const enabled: bool
    ghost var writes: seq<(string, Text)>      // the SETEX commands of this caller
    ghost var acquired: seq<CacheLock>         // the locks it was granted
    ghost var attempts: seq<CacheLock>         // its attempts to release one

    constructor (allowed: (string, Json, bool) -> bool, enabled: bool)
      ensures this.allowed == allowed && this.enabled == enabled
      ensures Valid() && values == map[] && locks == Locks(map[], 0, 0)
      ensures writes == [] && acquired == [] && attempts == []
    {
      this.allowed, this.enabled := allowed, enabled;
      values, locks := map[], Locks(map[], 0, 0);
      writes, acquired, attempts := [], [], [];
    }

    /** Every readable entry reads as something a producer of its key may answer. */
    ghost predicate Faithful()
      reads this`values
    {
      forall k | k in values :: Tells(k, ReadText(values[k].text))
    }

    predicate Tells(key: string, r: Lookup) {
      r.hit ==> allowed(key, r.value, r.isNegative) && !r.error
    }

    /** An answer of a producer, whose stored form reads as an answer too: as itself, unless it looks like a
        negative entry. */
    predicate Storable(key: string, value: Json, isNegative: bool) {
      allowed(key, value, isNegative) && Tells(key, ReadText(WriteText(value, isNegative)))
    }

    /** The producers of this key can only answer `v`. */
    ghost predicate Determined(key: string, v: Json, isNegative: bool) {
      forall w, n | allowed(key, w, n) :: w == v && n == isNegative
    }

    ghost predicate Valid()
      reads this
    {
      Faithful() && Issued(locks)
    }

    /** Time passes and other callers run any commands on any keys: writes of what they produced, deletions,
        corruption, locking, and releasing with tokens other than `mine`. */
    method Interfere(mine: set<nat>)
      requires Valid() && forall t | t in mine :: t < locks.nextToken
      modifies this`values, this`locks
      ensures Valid() && Later(old(locks), locks, mine)
    {
      var steps: nat :| 0 <= steps;
      while steps > 0
        invariant Valid() && Later(old(locks), locks, mine)
      {
        var key: string := *;
        var number: nat :| 0 <= number;
        var choice: nat :| 0 <= choice;
        if choice == 0 {
          locks := Apply(locks, Tick(number));
        } else if choice == 1 {
          values := values - {key};
        } else if choice == 2 {
          var v: Json := *;
          var isNegative: bool := *;
          if Storable(key, v, isNegative) {
            values := values[key := Entry(WriteText(v, isNegative), locks.now + number)];
          }
        } else if choice == 3 {
          values := values[key := Entry(Garbled, locks.now + number)];
        } else if choice == 4 {
          locks := Apply(locks, Take(key, number));
        } else if number !in mine {
          locks := Apply(locks, Give(key, number));
        }
        steps := steps - 1;
      }
    }

    /** What the server holds for a key now. */
    function Stored(key: string): Lookup
      reads this`values, this`locks
    {
      if key in values && locks.now < values[key].expires then ReadText(values[key].text) else Miss
    }

    method GetJsonLookup(key: string) returns (r: Lookup)
      requires Valid()
      ensures Tells(key, r) && (!r.hit ==> r.value == JNull)
      ensures !r.created && (!enabled ==> r == Miss)
      ensures enabled && !r.error ==> r == Stored(key)
    {
      if !enabled { return Miss; }
      var fails: bool := *;
      if fails { return Miss.(error := true); }
      if key !in values || values[key].expires <= locks.now { return Miss; }
      r := ReadText(values[key].text);
    }

    /** A failed command may still have reached the server. */
    method SetJson(key: string, text: Text) returns (stored: bool)
      requires Valid() && Tells(key, ReadText(text))
      modifies this`values, this`writes
      ensures Valid()
      ensures writes == if enabled then old(writes) + [(key, text)] else old(writes)
      ensures stored ==> enabled
      ensures values == old(values) ||
        (key in values && values[key].text == text && values - {key} == old(values) - {key})
      ensures stored ==> key in values && values[key].text == text
    {
      if !enabled { return false; }
      writes := writes + [(key, text)];
      var fails: bool := *;
      var reached: bool := *;
      var ttl: nat :| 0 <= ttl;
      if !fails || reached {
        values := values[key := Entry(text, locks.now + 1 + ttl)];
      }
      stored := !fails;
    }

    method AcquireLock(key: string, ttl: nat) returns (lock: Option<CacheLock>)
      requires Valid()
      modifies this`locks, this`acquired
      ensures acquired == if lock.Some? then old(acquired) + [lock.value] else old(acquired)
      ensures Valid() && locks.now == old(locks.now) && locks.nextToken >= old(locks.nextToken)
      ensures lock.Some? ==> enabled && lock.value.key == LockKey(key) && Holds(locks, lock.value.key, lock.value.token)
      ensures lock.Some? ==> !Alive(old(locks), LockKey(key))
      ensures lock.Some? ==> lock.value.token == old(locks.nextToken) < locks.nextToken
      ensures forall k | k != LockKey(key) :: k in locks.held <==> k in old(locks.held)
      ensures forall k | k != LockKey(key) && k in locks.held :: locks.held[k] == old(locks.held)[k]
      ensures Alive(old(locks), LockKey(key)) ==> locks.held == old(locks.held)
    {
      if !enabled { return None; }
      var fails: bool := *;
      var reached: bool := *;
      var seconds := if ttl == 0 then 1 else ttl;
      var lockKey := LockKey(key);
      if fails && !reached { return None; }
      var (after, token) := Acquire(locks, lockKey, seconds);
      locks := after;
      if fails || token.None? { return None; }
      lock := Some(CacheLock(lockKey, token.value));
      acquired := acquired + [lock.value];
    }

    /** Removes the caller's own live lease and nothing else. */
    method ReleaseLock(lock: Option<CacheLock>) returns (released: bool)
      requires Valid()
      modifies this`locks, this`attempts
      ensures Valid()
      ensures attempts == if lock.Some? && enabled then old(attempts) + [lock.value] else old(attempts)
      ensures lock.None? ==> !released && locks == old(locks)
      ensures lock.Some? ==> locks == old(locks) || locks == Release(old(locks), lock.value.key, lock.value.token).0
      ensures released ==> lock.Some? && Holds(old(locks), lock.value.key, lock.value.token)
      ensures released ==> lock.value.key !in locks.held
    {
      if lock.None? || !enabled { return false; }
      attempts := attempts + [lock.value];
      var fails: bool := *;
      var reached: bool := *;
      if fails && !reached { return false; }
      var (after, deleted) := Release(locks, lock.value.key, lock.value.token);
      locks := after;
      released := !fails && deleted;
    }

    /** Polls until a hit, an error or the deadline. */
    method WaitForJson(key: string, timeout: nat, poll: nat) returns (r: Lookup)
      requires Valid()
      modifies this`values, this`locks
      ensures !r.created
      ensures enabled && !r.hit && !r.error ==> locks.now >= old(locks.now) + timeout
      ensures !enabled ==> r == Miss
      ensures Valid() && Tells(key, r) && (!r.hit ==> r.value == JNull)
      ensures locks.now >= old(locks.now) && locks.nextToken >= old(locks.nextToken)
    {
      if !enabled { return Miss; }
      var deadline := locks.now + timeout;
      while locks.now < deadline
        invariant Valid() && locks.now >= old(locks.now) && locks.nextToken >= old(locks.nextToken)
        decreases deadline - locks.now
      {
        r := GetJsonLookup(key);
        if r.hit || r.error { return; }
        locks := Apply(locks, Tick(if poll == 0 then 1 else poll));
        Interfere({});
      }
      r := Miss;
    }

    /** Every lock granted since a point was the subject of exactly one release attempt. */
    ghost predicate Balanced(acquired0: seq<CacheLock>, attempts0: seq<CacheLock>)
      reads this`acquired, this`attempts
    {
      acquired0 <= acquired && attempts0 <= attempts && acquired[|acquired0|..] == attempts[|attempts0|..]
    }

    /** What a caller that produced this value writes. */
    function Writes(key: string, value: Json, isNegative: bool, shouldCache: Json -> bool): seq<(string, Text)> {
      if enabled && (isNegative || (value != JNull && shouldCache(value)))
      then [(key, WriteText(value, isNegative))]
      else []
    }

    /** For every pattern of failures, expiries, lost locks and other callers, a normal answer is one a producer
        of the key may give; when the producer is a function of the key, it is the producer's value and sign.
        The caller writes what it produced and nothing else, and gives back every lock it was granted with
        one attempt. `value` is what this call's producer would return. */
    method GetOrSetJson(key: string, value: Json, isNegative: bool, raises: bool, shouldCache: Json -> bool,
                        lockTtl: nat, timeout: nat, poll: nat)
      returns (answer: Answer)
      requires Valid() && Storable(key, value, isNegative)
      modifies this
      ensures Valid()
      ensures answer.Returned? ==> answer.lookup.hit && allowed(key, answer.lookup.value, answer.lookup.isNegative)
      ensures answer.Returned? && Determined(key, value, isNegative) ==> answer.lookup.value == value
      ensures answer.Returned? && Determined(key, value, isNegative) ==> answer.lookup.isNegative == isNegative
      ensures answer == ProducerRaised ==> raises
      ensures answer.Returned? && answer.lookup.created ==>
        !raises && answer.lookup == Lookup(true, value, isNegative, true, false)
      ensures writes == old(writes)
        + if answer.Returned? && answer.lookup.created then Writes(key, value, isNegative, shouldCache) else []
      ensures Balanced(old(acquired), old(attempts))
      ensures !enabled ==>
        answer == if raises then ProducerRaised else Returned(Lookup(true, value, isNegative, true, false))
    {
      var lookup := GetJsonLookup(key);
      if lookup.hit { return Returned(lookup); }
      Interfere({});
      var lock := AcquireLock(key, lockTtl);
      if lock.None? {
        lookup := WaitForJson(key, timeout, poll);
        if lookup.hit { return Returned(lookup); }
      }
      answer := ProduceUnderLock(key, value, isNegative, raises, shouldCache, lock);
      var _ := ReleaseLock(lock);
    }

    /** The body of the try block. */
    method ProduceUnderLock(key: string, value: Json, isNegative: bool, raises: bool, shouldCache: Json -> bool,
                            lock: Option<CacheLock>)
      returns (answer: Answer)
      requires Valid() && Storable(key, value, isNegative)
      requires lock.Some? ==> enabled && lock.value.token < locks.nextToken
      modifies this`values, this`locks, this`writes
      ensures Valid()
      ensures answer.Returned? ==> answer.lookup.hit && allowed(key, answer.lookup.value, answer.lookup.isNegative)
      ensures answer == ProducerRaised ==> raises
      ensures answer.Returned? && answer.lookup.created ==>
        !raises && answer.lookup == Lookup(true, value, isNegative, true, false)
      ensures answer.Returned? && !answer.lookup.created ==> lock.Some?
      ensures writes == old(writes)
        + if answer.Returned? && answer.lookup.created then Writes(key, value, isNegative, shouldCache) else []
    {
      var mine := if lock.Some? then {lock.value.token} else {};
      Interfere(mine);
      if lock.Some? {
        var lookup := GetJsonLookup(key);
        if lookup.hit { return Returned(lookup); }
      }
      Interfere(mine);
      if raises { return ProducerRaised; }
      if isNegative {
        var _ := SetJson(key, WriteText(value, true));
      } else if value != JNull && shouldCache(value) {
        var _ := SetJson(key, WriteText(value, false));
      }
      Interfere(mine);
      answer := Returned(Lookup(true, value, isNegative, true, false));
    }
  }

  /** What others may do to the locks, seen by the holder of the tokens `mine`: a lease of ours stays until it
      expires. */
  ghost predicate Later(a: Locks, b: Locks, mine: set<nat>) {
    && a.now <= b.now && a.nextToken <= b.nextToken
    && (forall k | k in b.held && b.held[k].token in mine :: k in a.held && a.held[k] == b.held[k])
    && (forall k | k in a.held && a.held[k].token in mine && b.now < a.held[k].expires ::
          k in b.held && b.held[k] == a.held[k])
  }
}
