/** Payload trees: the values that travel through tool calls, traces and caches.

`Value` is what the Python code receives (any object), `Json` is what a JSON text says:
an object is a finite map, so the order of its fields does not matter. */
module Values {
  datatype Option<+T> = None | Some(value: T)

  datatype Value =
    | Null
    | Bool(b: bool)
    | Int(n: int)
    | Float(text: string)         // given by its JSON text
    | Str(s: string)
    | Dict(entries: seq<Field>)   // a Mapping, in iteration order, keys already passed through str()
    | List(items: seq<Value>)
    | Model(fields: seq<Field>)   // a pydantic object, given by its model_dump()
    | Other(text: string)         // anything else (bytes, dates, ...), given by its str()

  datatype Field = Field(key: string, val: Value)

  datatype Json =
    | JNull
    | JBool(b: bool)
    | JInt(n: int)
    | JFloat(text: string)
    | JStr(s: string)
    | JObject(fields: map<string, Json>)
    | JArray(items: seq<Json>)

  /** The tree a JSON text with sorted keys stands for; a later field of the same name wins. */
  function Canon(v: Value): Json
    decreases v, 1
  {
    match v
    case Null => JNull
    case Bool(b) => JBool(b)
    case Int(n) => JInt(n)
    case Float(text) => JFloat(text)
    case Str(s) => JStr(s)
    case Other(text) => JStr(text)
    case Dict(es) => JObject(CanonFields(es))
    case Model(es) => JObject(CanonFields(es))
    case List(items) => JArray(seq(|items|, i requires 0 <= i < |items| => Canon(items[i])))
  }

  function CanonFields(es: seq<Field>): map<string, Json>
    decreases es, 0
  {
    if es == [] then map[]
    else CanonFields(es[..|es| - 1])[es[|es| - 1].key := Canon(es[|es| - 1].val)]
  }

  predicate HasKey(es: seq<Field>, k: string) {
    exists i :: 0 <= i < |es| && es[i].key == k
  }

  predicate UniqueKeys(es: seq<Field>) {
    forall i, j :: 0 <= i < j < |es| ==> es[i].key != es[j].key
  }

  /** Position of the field that `d[k]` reads. */
  function LastIndex(es: seq<Field>, k: string): (i: nat)
    requires HasKey(es, k)
    ensures i < |es| && es[i].key == k
    ensures forall j :: i < j < |es| ==> es[j].key != k
  {
    if es[|es| - 1].key == k then |es| - 1 else LastIndex(es[..|es| - 1], k)
  }

  /** `d[k] = v` on a dictionary kept in insertion order. */
  function Upsert(es: seq<Field>, k: string, v: Value): seq<Field> {
    if HasKey(es, k) then es[LastIndex(es, k) := Field(k, v)] else es + [Field(k, v)]
  }

  lemma UpsertKeys(es: seq<Field>, k: string, v: Value)
    requires UniqueKeys(es)
    ensures var r := Upsert(es, k, v);
      UniqueKeys(r)
      && (forall q :: HasKey(r, q) <==> q == k || HasKey(es, q))
      && (forall i :: 0 <= i < |r| ==> if r[i].key == k then r[i].val == v else i < |es| && r[i] == es[i])
  {
    var r := Upsert(es, k, v);
    forall q ensures HasKey(r, q) <==> q == k || HasKey(es, q) {
      if q == k {
        assert HasKey(es, k) ==> r[LastIndex(es, k)].key == k;
        assert !HasKey(es, k) ==> r[|es|].key == k;
      } else {
        if HasKey(r, q) { var i :| 0 <= i < |r| && r[i].key == q; assert es[i].key == q; }
        if HasKey(es, q) { var i :| 0 <= i < |es| && es[i].key == q; assert r[i].key == q; }
      }
    }
  }

  lemma SnocKeys(es: seq<Field>)
    requires es != []
    ensures forall q :: HasKey(es, q) <==> HasKey(es[..|es| - 1], q) || q == es[|es| - 1].key
  {
    forall q ensures HasKey(es, q) <==> HasKey(es[..|es| - 1], q) || q == es[|es| - 1].key {
      if HasKey(es, q) {
        var i :| 0 <= i < |es| && es[i].key == q;
        if i < |es| - 1 { assert es[..|es| - 1][i].key == q; }
      }
      if HasKey(es[..|es| - 1], q) {
        var i :| 0 <= i < |es| - 1 && es[..|es| - 1][i].key == q;
        assert es[i].key == q;
      }
      assert es[|es| - 1].key == es[|es| - 1].key;
    }
  }

  /** Reading a field of the canonical tree is reading the last field of that name. */
  lemma {:induction false} CanonFieldsAt(es: seq<Field>)
    ensures forall k :: k in CanonFields(es) <==> HasKey(es, k)
    ensures forall k | HasKey(es, k) :: CanonFields(es)[k] == Canon(es[LastIndex(es, k)].val)
    decreases |es|
  {
    if es != [] {
      CanonFieldsAt(es[..|es| - 1]);
      SnocKeys(es);
    }
  }

  /** No field of the tree holds a live Python object. */
  predicate IsJson(v: Value) {
    match v
    case Dict(es) => forall i | 0 <= i < |es| :: IsJson(es[i].val)
    case List(items) => forall i | 0 <= i < |items| :: IsJson(items[i])
    case Model(_) => false
    case Other(_) => false
    case _ => true
  }
}
