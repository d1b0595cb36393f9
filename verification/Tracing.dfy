/** app/tracing/service.py: redaction and truncation of payloads before they are stored. */
module Tracing {
  import opened Values

  const REDACTED_VALUE := "[REDACTED]"
  const BINARY_FIELD_NAMES := {"base64", "data", "file_data"}
  const BINARY_FIELD_MIN_CHARS := 512
  const SENSITIVE_FIELD_NAMES := {
    "api_key", "apikey", "authorization", "cookie", "id_token", "password",
    "refresh_token", "secret", "set_cookie", "token", "access_token"
  }
  const ELLIPSIS := "…"

  const HEX_DIGITS := "0123456789abcdef"

  /** An arbitrary function of the text; `Sha256Hex` ranges over every function into 64 hexadecimal digits. */
  const RawDigest: string -> string

  function Sha256Hex(text: string): (h: string)
    ensures |h| == 64 && forall i :: 0 <= i < 64 ==> h[i] in HEX_DIGITS
  {
    var raw := RawDigest(text);
    seq(64, i => if 0 <= i < |raw| then HEX_DIGITS[raw[i] as int % 16] else '0')
  }

  predicate IsSpace(c: char) { c in " \t\n\r" }

  function StripLeft(s: string): string {
    if s != "" && IsSpace(s[0]) then StripLeft(s[1..]) else s
  }

  function StripRight(s: string): string {
    if s != "" && IsSpace(s[|s| - 1]) then StripRight(s[..|s| - 1]) else s
  }

  function LowerChar(c: char): char {
    if 'A' <= c <= 'Z' then (c as int - 'A' as int + 'a' as int) as char else c
  }

  /** `str(key).strip().lower().replace("-", "_")` on ASCII names. */
  function FieldName(key: string): string {
    var s := StripRight(StripLeft(key));
    seq(|s|, i requires 0 <= i < |s| => if s[i] == '-' then '_' else LowerChar(s[i]))
  }

  predicate IsSensitiveField(key: string) {
    var n := FieldName(key);
    n in SENSITIVE_FIELD_NAMES || (|n| >= 7 && n[|n| - 7..] == "_secret")
  }

  function Truncate(s: string, maxLength: nat): string {
    if |s| > maxLength then s[..maxLength] + ELLIPSIS else s
  }

  function LargeBinarySummary(text: string): Value {
    Dict([
      Field("redacted", Bool(true)),
      Field("reason", Str("large-binary-field")),
      Field("sha256", Str(Sha256Hex(text))),
      Field("chars", Int(|text|))
    ])
  }

  /** The specification of `safe_json`. */
  function SafeJson(v: Value, maxLength: nat): Value
    decreases v, 1
  {
    match v
    case Str(s) => Str(Truncate(s, maxLength))
    case Other(text) => Str(Truncate(text, maxLength))
    case Dict(es) => Dict(SafeFields(es, maxLength))
    case Model(es) => Dict(SafeFields(es, maxLength))
    case List(items) => List(seq(|items|, i requires 0 <= i < |items| => SafeJson(items[i], maxLength)))
    case _ => v
  }

  function SafeFields(es: seq<Field>, maxLength: nat): seq<Field>
    decreases es, 0
  {
    if es == [] then []
    else
      var last := es[|es| - 1];
      Upsert(SafeFields(es[..|es| - 1], maxLength), last.key, SafeField(last.key, last.val, maxLength))
  }

  predicate IsLargeBinary(key: string, v: Value) {
    key in BINARY_FIELD_NAMES && v.Str? && |v.s| >= BINARY_FIELD_MIN_CHARS
  }

  function SafeField(key: string, v: Value, maxLength: nat): Value
    decreases v, 2
  {
    if IsSensitiveField(key) then Str(REDACTED_VALUE)
    else if IsLargeBinary(key, v) then LargeBinarySummary(v.s)
    else SafeJson(v, maxLength)
  }

  /** The code's form: a result dictionary filled field by field, a list filled item by item. */
  method Normalize(v: Value, maxLength: nat) returns (r: Value)
    ensures r == SafeJson(v, maxLength)
    decreases v
  {
    match v
    case Str(s) => r := Str(Truncate(s, maxLength));
    case Other(text) => r := Str(Truncate(text, maxLength));
    case Dict(es) =>
      var result := NormalizeFields(es, maxLength);
      r := Dict(result);
    case Model(es) =>
      var result := NormalizeFields(es, maxLength);
      r := Dict(result);
    case List(items) =>
      var out: seq<Value> := [];
      for i := 0 to |items|
        invariant |out| == i
        invariant forall j :: 0 <= j < i ==> out[j] == SafeJson(items[j], maxLength)
      {
        var item := Normalize(items[i], maxLength);
        out := out + [item];
      }
      r := List(out);
    case _ => r := v;
  }

  method NormalizeFields(es: seq<Field>, maxLength: nat) returns (result: seq<Field>)
    ensures result == SafeFields(es, maxLength)
    decreases es
  {
    result := [];
    for i := 0 to |es|
      invariant result == SafeFields(es[..i], maxLength)
    {
      assert es[..i + 1][..i] == es[..i];
      if IsSensitiveField(es[i].key) {
        result := Upsert(result, es[i].key, Str(REDACTED_VALUE));
      } else if IsLargeBinary(es[i].key, es[i].val) {
        result := Upsert(result, es[i].key, LargeBinarySummary(es[i].val.s));
      } else {
        var item := Normalize(es[i].val, maxLength);
        result := Upsert(result, es[i].key, item);
      }
    }
    assert es[..|es|] == es;
  }

  // ---- What a second pass does -------------------------------------------------------------

  /** The first pass turns this field into a text long enough for the second pass to summarise. */
  predicate BecomesLargeText(key: string, v: Value, maxLength: nat) {
    && key in BINARY_FIELD_NAMES && v.Other?
    && |v.text| >= BINARY_FIELD_MIN_CHARS && maxLength + 1 >= BINARY_FIELD_MIN_CHARS
  }

  ghost predicate FieldSettled(key: string, v: Value, maxLength: nat)
    decreases v, 2
  {
    IsSensitiveField(key) || IsLargeBinary(key, v)
    || (!BecomesLargeText(key, v, maxLength) && Settled(v, maxLength))
  }

  /** No binary field that survives holds a live object whose text is large. */
  ghost predicate Settled(v: Value, maxLength: nat)
    decreases v, 1
  {
    match v
    case Dict(es) => forall k | HasKey(es, k) :: FieldSettled(k, es[LastIndex(es, k)].val, maxLength)
    case Model(es) => forall k | HasKey(es, k) :: FieldSettled(k, es[LastIndex(es, k)].val, maxLength)
    case List(items) => forall i | 0 <= i < |items| :: Settled(items[i], maxLength)
    case _ => true
  }

  /** The output has the input's keys, each once, and the value under a key is that of its last field. */
  lemma {:induction false} SafeFieldsAt(es: seq<Field>, maxLength: nat)
    ensures UniqueKeys(SafeFields(es, maxLength))
    ensures forall k :: HasKey(SafeFields(es, maxLength), k) <==> HasKey(es, k)
    ensures forall i :: 0 <= i < |SafeFields(es, maxLength)| ==>
      var f := SafeFields(es, maxLength)[i];
      HasKey(es, f.key) && f.val == SafeField(f.key, es[LastIndex(es, f.key)].val, maxLength)
    decreases |es|
  {
    if es != [] {
      var front, last := es[..|es| - 1], es[|es| - 1];
      SafeFieldsAt(front, maxLength);
      SnocKeys(es);
      UpsertKeys(SafeFields(front, maxLength), last.key, SafeField(last.key, last.val, maxLength));
      var r := SafeFields(es, maxLength);
      forall i | 0 <= i < |r|
        ensures HasKey(es, r[i].key)
          && r[i].val == SafeField(r[i].key, es[LastIndex(es, r[i].key)].val, maxLength)
      {
        assert HasKey(r, r[i].key);
        if r[i].key != last.key {
          assert r[i] == SafeFields(front, maxLength)[i];
          assert LastIndex(es, r[i].key) == LastIndex(front, r[i].key);
        }
      }
    }
  }

  /** A dictionary with unique keys whose values are unchanged is unchanged. */
  lemma {:induction false} FixedFields(r: seq<Field>, maxLength: nat)
    requires UniqueKeys(r)
    requires forall i :: 0 <= i < |r| ==> SafeField(r[i].key, r[i].val, maxLength) == r[i].val
    ensures SafeFields(r, maxLength) == r
    decreases |r|
  {
    hide SafeField, SafeJson;
    if r != [] {
      var front := r[..|r| - 1];
      FixedFields(front, maxLength);
      assert !HasKey(front, r[|r| - 1].key);
      assert front + [r[|r| - 1]] == r;
    }
  }

  lemma PlainName(s: string)
    requires s != "" && forall i :: 0 <= i < |s| ==> s[i] != '-' && !IsSpace(s[i]) && !('A' <= s[i] <= 'Z')
    ensures FieldName(s) == s
  {
    assert StripLeft(s) == s;
    assert StripRight(s) == s;
  }

  /** A test that clears the field names of a summary. */
  predicate ClearName(s: string) {
    && 4 <= |s| <= 8
    && s[0] != 'a' && s[0] != 'i' && s[0] != 'p' && s[1] != 'o'
    && !(s[1] == 'e' && (s[2] == 'f' || s[2] == 'c' || s[2] == 't'))
    && forall i :: 0 <= i < |s| ==> 'a' <= s[i] <= 'z' || '0' <= s[i] <= '9'
  }

  lemma NotSensitive(s: string)
    requires ClearName(s)
    ensures !IsSensitiveField(s)
  {
    PlainName(s);
    forall n | n in SENSITIVE_FIELD_NAMES ensures !ClearName(n) {
    }
    if |s| >= 7 { assert s[|s| - 7..][0] != '_'; assert "_secret"[0] == '_'; }
  }

  lemma SummaryNames()
    ensures ClearName("redacted") && ClearName("reason") && ClearName("sha256")
    ensures ClearName("chars") && ClearName("data")
  {
  }

  lemma SummaryUnique(text: string)
    ensures UniqueKeys(LargeBinarySummary(text).entries)
  {
    var es := LargeBinarySummary(text).entries;
    assert |es[0].key| == 8 && |es[1].key| == 6 && |es[2].key| == 6 && |es[3].key| == 5;
    assert es[1].key[0] == 'r' && es[2].key[0] == 's';
  }

  lemma SummaryIsFixed(text: string, maxLength: nat)
    requires maxLength >= 64
    ensures SafeJson(LargeBinarySummary(text), maxLength) == LargeBinarySummary(text)
  {
    var es := LargeBinarySummary(text).entries;
    SummaryUnique(text);
    forall i | 0 <= i < |es| ensures SafeField(es[i].key, es[i].val, maxLength) == es[i].val {
      SummaryFieldIsFixed(es[i].key, es[i].val, maxLength);
    }
    FixedFields(es, maxLength);
  }

  lemma SummaryFieldIsFixed(key: string, v: Value, maxLength: nat)
    requires key == "redacted" || key == "reason" || key == "sha256" || key == "chars"
    requires v.Bool? || v.Int? || (v.Str? && |v.s| <= maxLength)
    ensures SafeField(key, v, maxLength) == v
  {
    hide IsSensitiveField;
    SummaryNames();
    NotSensitive(key);
    assert key[0] == 'r' || key[0] == 's' || key[0] == 'c';
    assert key !in BINARY_FIELD_NAMES by {
      assert "base64"[0] == 'b' && "data"[0] == 'd' && "file_data"[0] == 'f';
    }
  }

  lemma {:induction false} SettledIsFixed(v: Value, maxLength: nat)
    requires maxLength >= 64
    requires Settled(v, maxLength)
    ensures SafeJson(SafeJson(v, maxLength), maxLength) == SafeJson(v, maxLength)
  {
    match v
    case Dict(es) => SettledFields(es, maxLength);
    case Model(es) => SettledFields(es, maxLength);
    case List(items) =>
      forall i | 0 <= i < |items|
        ensures SafeJson(SafeJson(items[i], maxLength), maxLength) == SafeJson(items[i], maxLength)
      {
        SettledIsFixed(items[i], maxLength);
      }
    case _ =>
  }

  lemma {:induction false} SettledFields(es: seq<Field>, maxLength: nat)
    requires maxLength >= 64
    requires forall k | HasKey(es, k) :: FieldSettled(k, es[LastIndex(es, k)].val, maxLength)
    ensures SafeFields(SafeFields(es, maxLength), maxLength) == SafeFields(es, maxLength)
  {
    var r := SafeFields(es, maxLength);
    SafeFieldsAt(es, maxLength);
    forall i | 0 <= i < |r| ensures SafeField(r[i].key, r[i].val, maxLength) == r[i].val {
      var k := r[i].key;
      assert HasKey(es, k);
      var v := es[LastIndex(es, k)].val;
      assert HasKey(es, k);
      assert FieldSettled(k, v, maxLength);
      if !IsSensitiveField(k) {
        if IsLargeBinary(k, v) {
          SummaryIsFixed(v.s, maxLength);
        } else {
          SettledIsFixed(v, maxLength);
        }
      }
    }
    FixedFields(r, maxLength);
  }

  /** An unsettled payload is told apart from its second pass even by the order-free canonical text. */
  lemma {:induction false} UnsettledChanges(v: Value, maxLength: nat)
    requires !Settled(v, maxLength)
    ensures Canon(SafeJson(SafeJson(v, maxLength), maxLength)) != Canon(SafeJson(v, maxLength))
    decreases v, 2
  {
    match v
    case Dict(es) => UnsettledFields(es, maxLength);
    case Model(es) => UnsettledFields(es, maxLength);
    case List(items) =>
      var i :| 0 <= i < |items| && !Settled(items[i], maxLength);
      UnsettledChanges(items[i], maxLength);
      assert Canon(SafeJson(v, maxLength)).items[i] == Canon(SafeJson(items[i], maxLength));
      assert Canon(SafeJson(SafeJson(v, maxLength), maxLength)).items[i]
          == Canon(SafeJson(SafeJson(items[i], maxLength), maxLength));
    case _ => assert false;
  }

  lemma CanonAfterPass(es: seq<Field>, k: string, maxLength: nat)
    requires HasKey(es, k)
    ensures k in CanonFields(SafeFields(es, maxLength))
    ensures CanonFields(SafeFields(es, maxLength))[k] == Canon(SafeField(k, es[LastIndex(es, k)].val, maxLength))
    ensures HasKey(SafeFields(es, maxLength), k)
    ensures var r := SafeFields(es, maxLength);
      r[LastIndex(r, k)].val == SafeField(k, es[LastIndex(es, k)].val, maxLength)
  {
    SafeFieldsAt(es, maxLength);
    CanonFieldsAt(SafeFields(es, maxLength));
  }

  /** A second pass over one field: a large text becomes a summary, otherwise it is a second pass over the value. */
  lemma SecondPassOfField(k: string, v: Value, maxLength: nat)
    requires !FieldSettled(k, v, maxLength)
    ensures var w := SafeField(k, v, maxLength);
      if BecomesLargeText(k, v, maxLength) then w.Str? && SafeField(k, w, maxLength).Dict?
      else !Settled(v, maxLength) && w == SafeJson(v, maxLength) && SafeField(k, w, maxLength) == SafeJson(w, maxLength)
  {
  }

  lemma {:induction false} UnsettledFields(es: seq<Field>, maxLength: nat)
    requires exists k :: HasKey(es, k) && !FieldSettled(k, es[LastIndex(es, k)].val, maxLength)
    ensures CanonFields(SafeFields(SafeFields(es, maxLength), maxLength)) != CanonFields(SafeFields(es, maxLength))
    decreases es, 1
  {
    var k :| HasKey(es, k) && !FieldSettled(k, es[LastIndex(es, k)].val, maxLength);
    UnsettledField(es, k, maxLength);
  }

  lemma {:induction false} UnsettledField(es: seq<Field>, k: string, maxLength: nat)
    requires HasKey(es, k) && !FieldSettled(k, es[LastIndex(es, k)].val, maxLength)
    ensures CanonFields(SafeFields(SafeFields(es, maxLength), maxLength)) != CanonFields(SafeFields(es, maxLength))
    decreases es, 0
  {
    hide Canon, CanonFields, SafeFields, SafeField, FieldSettled;
    CanonAfterPass(es, k, maxLength);
    CanonAfterPass(SafeFields(es, maxLength), k, maxLength);
    FieldChanges(k, es[LastIndex(es, k)].val, maxLength);
  }

  lemma {:induction false} FieldChanges(k: string, v: Value, maxLength: nat)
    requires !FieldSettled(k, v, maxLength)
    ensures var w := SafeField(k, v, maxLength); Canon(SafeField(k, w, maxLength)) != Canon(w)
    decreases v, 3
  {
    SecondPassOfField(k, v, maxLength);
    if !BecomesLargeText(k, v, maxLength) { UnsettledChanges(v, maxLength); }
  }

  /** `safe_json` with at least 64 characters changes nothing the second time, exactly on the settled payloads. */
  lemma IdempotentIff(v: Value, maxLength: nat)
    requires maxLength >= 64
    ensures SafeJson(SafeJson(v, maxLength), maxLength) == SafeJson(v, maxLength) <==> Settled(v, maxLength)
  {
    if Settled(v, maxLength) { SettledIsFixed(v, maxLength); } else { UnsettledChanges(v, maxLength); }
  }

  lemma {:induction false} JsonIsSettled(v: Value, maxLength: nat)
    requires IsJson(v)
    ensures Settled(v, maxLength)
  {
    match v
    case Dict(es) =>
      forall k | HasKey(es, k) ensures FieldSettled(k, es[LastIndex(es, k)].val, maxLength) {
        JsonIsSettled(es[LastIndex(es, k)].val, maxLength);
      }
    case List(items) =>
      forall i | 0 <= i < |items| ensures Settled(items[i], maxLength) { JsonIsSettled(items[i], maxLength); }
    case _ =>
  }

  lemma SingleField(f: Field, maxLength: nat)
    ensures SafeFields([f], maxLength) == [Field(f.key, SafeField(f.key, f.val, maxLength))]
  {
    assert [f][..0] == [];
    assert !HasKey([], f.key);
  }

  lemma CutDigestChanges(text: string, maxLength: nat)
    requires maxLength < 64
    ensures SafeJson(LargeBinarySummary(text), maxLength) != LargeBinarySummary(text)
  {
    var se := LargeBinarySummary(text).entries;
    SummaryUnique(text);
    SafeFieldsAt(se, maxLength);
    assert HasKey(se, se[2].key);
    assert LastIndex(se, se[2].key) == 2;
    ShaFieldPass(Sha256Hex(text), maxLength);
    CutDigest(Sha256Hex(text), maxLength);
  }

  lemma ShaFieldPass(h: string, maxLength: nat)
    ensures SafeField("sha256", Str(h), maxLength) == Str(Truncate(h, maxLength))
  {
    SummaryNames();
    NotSensitive("sha256");
    assert "base64"[0] == 'b' && "data"[0] == 'd' && "file_data"[0] == 'f' && "sha256"[0] == 's';
  }

  lemma CutDigest(h: string, maxLength: nat)
    requires |h| == 64 && maxLength < 64
    requires forall i :: 0 <= i < 64 ==> h[i] in HEX_DIGITS
    ensures Truncate(h, maxLength) != h
  {
    assert Truncate(h, maxLength)[maxLength] == '…';
  }

  lemma LargePayloadBelow64(maxLength: nat) returns (v: Value)
    requires maxLength < 64
    ensures IsJson(v)
    ensures SafeJson(SafeJson(v, maxLength), maxLength) != SafeJson(v, maxLength)
  {
    var text := seq(BINARY_FIELD_MIN_CHARS, _ => 'A');
    v := Dict([Field("data", Str(text))]);
    SummaryNames();
    NotSensitive("data");
    SingleField(Field("data", Str(text)), maxLength);
    SingleField(Field("data", LargeBinarySummary(text)), maxLength);
    CutDigestChanges(text, maxLength);
  }

  /** Idempotence on every JSON tree holds exactly from 64 characters up: below, the digest in a summary is cut. */
  lemma IdempotentOnJsonIff(maxLength: nat)
    ensures (forall v | IsJson(v) :: SafeJson(SafeJson(v, maxLength), maxLength) == SafeJson(v, maxLength))
        <==> maxLength >= 64
  {
    if maxLength >= 64 {
      forall v | IsJson(v) ensures SafeJson(SafeJson(v, maxLength), maxLength) == SafeJson(v, maxLength) {
        JsonIsSettled(v, maxLength);
        SettledIsFixed(v, maxLength);
      }
    } else {
      var v := LargePayloadBelow64(maxLength);
    }
  }
}
