/**
 * The small part of JSON (RFC 8259) this system puts on the wire: a value
 * datatype, member lookup as Go's `encoding/json` does it when filling a
 * struct, the number grammar of `json.Number`, and the compact text that
 * `json.Marshal` writes (HTML-safe string escaping, members in the order given).
 */
module Json {
  import opened Wrappers
  import Decimal

  /** A JSON value. A number keeps its literal text, as `json.Number` does. */
  datatype Value =
    | JNull
    | JBool(b: bool)
    | JNumber(literal: string)
    | JString(s: string)
    | JArray(items: seq<Value>)
    | JObject(members: seq<Member>)

  datatype Member = Member(key: string, value: Value)

  /**
   * The value of the member named `key`: the last one when the key repeats,
   * since a later member overwrites what an earlier one set.
   */
  function Get(members: seq<Member>, key: string): (r: Option<Value>)
    ensures r.None? <==> forall i | 0 <= i < |members| :: members[i].key != key
    ensures r.Some? ==> exists i | 0 <= i < |members| ::
      members[i] == Member(key, r.value) && forall j | i < j < |members| :: members[j].key != key
    decreases |members|
  {
    if |members| == 0 then None
    else if members[|members| - 1].key == key then Some(members[|members| - 1].value)
    else Get(members[..|members| - 1], key)
  }

  /** Adding a member under another key does not change what a key looks up. */
  lemma GetOtherKey(members: seq<Member>, m: Member, key: string)
    requires m.key != key
    ensures Get(members + [m], key) == Get(members, key)
  {
    assert (members + [m])[..|members|] == members;
  }

  /** The first index at or after `i` that does not hold a digit. */
  function SkipDigits(s: string, i: nat): (j: nat)
    requires i <= |s|
    ensures i <= j <= |s|
    ensures forall k | i <= k < j :: Decimal.IsDigit(s[k])
    ensures j < |s| ==> !Decimal.IsDigit(s[j])
    decreases |s| - i
  {
    if i < |s| && Decimal.IsDigit(s[i]) then SkipDigits(s, i + 1) else i
  }

  /** Where an optional exponent starting at `i` ends; `None` when it is cut short after its sign. */
  function ExponentEnd(s: string, i: nat): (r: Option<nat>)
    requires i <= |s|
    ensures r.Some? ==> i <= r.value <= |s|
  {
    if i + 1 < |s| && (s[i] == 'e' || s[i] == 'E') then
      if s[i + 1] == '+' || s[i + 1] == '-' then
        if i + 2 == |s| then None else Some(SkipDigits(s, i + 2))
      else Some(SkipDigits(s, i + 1))
    else Some(i)
  }

  /**
   * The number grammar of section 6 of RFC 8259, read left to right the way
   * `encoding/json` checks a string given for a `json.Number`: an optional
   * minus, `0` or a non-zero digit run, an optional fraction, an optional exponent.
   */
  predicate IsNumberLiteral(s: string) {
    var a := if |s| > 0 && s[0] == '-' then 1 else 0;
    if a >= |s| || !Decimal.IsDigit(s[a]) then false
    else
      var b := if s[a] == '0' then a + 1 else SkipDigits(s, a + 1);
      var c := if b + 1 < |s| && s[b] == '.' && Decimal.IsDigit(s[b + 1]) then SkipDigits(s, b + 2) else b;
      ExponentEnd(s, c) == Some(|s|)
  }

  lemma {:induction false} SkipAllDigits(s: string, i: nat)
    requires i <= |s|
    requires forall k | i <= k < |s| :: Decimal.IsDigit(s[k])
    ensures SkipDigits(s, i) == |s|
    decreases |s| - i
  {
    if i < |s| {
      SkipAllDigits(s, i + 1);
    }
  }

  /** What `%d` writes is a JSON number, so a score's encoding is well-formed. */
  lemma FormatIntIsNumber(n: int)
    ensures IsNumberLiteral(Decimal.FormatInt(n))
  {
    var s := Decimal.FormatInt(n);
    var a := if n < 0 then 1 else 0;
    if s[a] != '0' {
      SkipAllDigits(s, a + 1);
    }
  }

  /** Hexadecimal digit, lower case as Go writes them. */
  function HexDigit(d: nat): char
    requires d < 16
  {
    "0123456789abcdef"[d]
  }

  /** True of the characters `json.Marshal` writes as they are inside a string. */
  predicate IsPlain(c: char) {
    c >= ' ' && c != '"' && c != '\\' && c != '<' && c != '>' && c != '&'
    && c != '\U{2028}' && c != '\U{2029}'
  }

  /** How `json.Marshal` writes one character of a string (HTML escaping on). */
  function EscapeChar(c: char): (r: string)
    ensures IsPlain(c) ==> r == [c]
  {
    if IsPlain(c) then [c]
    else if c == '"' then "\\\""
    else if c == '\\' then "\\\\"
    else if c == '\n' then "\\n"
    else if c == '\r' then "\\r"
    else if c == '\t' then "\\t"
    else if c < ' ' || c == '<' || c == '>' || c == '&' then
      "\\u00" + [HexDigit((c as int) / 16), HexDigit((c as int) % 16)]
    else if c == '\U{2028}' then "\\u2028"
    else "\\u2029"
  }

  /** The pieces of a string, one after the other. */
  function Concat(parts: seq<string>): string
    decreases |parts|
  {
    if |parts| == 0 then "" else parts[0] + Concat(parts[1..])
  }

  function Escape(s: string): string {
    Concat(seq(|s|, i requires 0 <= i < |s| => EscapeChar(s[i])))
  }

  lemma {:induction false} ConcatSingletons(s: string)
    ensures Concat(seq(|s|, i requires 0 <= i < |s| => [s[i]])) == s
    decreases |s|
  {
    if |s| > 0 {
      var parts := seq(|s|, i requires 0 <= i < |s| => [s[i]]);
      ConcatSingletons(s[1..]);
      assert parts[1..] == seq(|s[1..]|, i requires 0 <= i < |s[1..]| => [s[1..][i]]);
    }
  }

  /** A string with nothing to escape is written as it is. */
  lemma EscapePlain(s: string)
    requires forall i | 0 <= i < |s| :: IsPlain(s[i])
    ensures Escape(s) == s
  {
    assert seq(|s|, i requires 0 <= i < |s| => EscapeChar(s[i])) == seq(|s|, i requires 0 <= i < |s| => [s[i]]);
    ConcatSingletons(s);
  }

  function Quote(s: string): string {
    "\"" + Escape(s) + "\""
  }

  /** A string with nothing to escape is written between quotes as it is. */
  lemma QuotePlain(s: string)
    requires forall i | 0 <= i < |s| :: IsPlain(s[i])
    ensures Quote(s) == "\"" + s + "\""
  {
    EscapePlain(s);
  }

  /** The compact text `json.Marshal` produces for a value. */
  function Serialize(v: Value): string
    decreases v, 1, 0
  {
    match v
    case JNull => "null"
    case JBool(b) => if b then "true" else "false"
    case JNumber(lit) => lit
    case JString(s) => Quote(s)
    case JArray(items) => "[" + SerializeItems(v, 0) + "]"
    case JObject(ms) => "{" + SerializeMembers(v, 0) + "}"
  }

  /** The elements of array `v` from index `i` on, separated by commas. */
  function SerializeItems(v: Value, i: nat): string
    requires v.JArray? && i <= |v.items|
    decreases v, 0, |v.items| - i
  {
    if i == |v.items| then ""
    else (if i == 0 then "" else ",") + Serialize(v.items[i]) + SerializeItems(v, i + 1)
  }

  /** The members of object `v` from index `i` on, each as `"key":value`, separated by commas. */
  function SerializeMembers(v: Value, i: nat): string
    requires v.JObject? && i <= |v.members|
    decreases v, 0, |v.members| - i
  {
    if i == |v.members| then ""
    else
      (if i == 0 then "" else ",") + Quote(v.members[i].key) + ":" + Serialize(v.members[i].value)
      + SerializeMembers(v, i + 1)
  }

  /** A one-member object is written as its quoted key, a colon and its value, in braces. */
  lemma SerializeSingleMember(k: string, v: Value)
    ensures Serialize(JObject([Member(k, v)])) == "{" + Quote(k) + ":" + Serialize(v) + "}"
  {
    var o := JObject([Member(k, v)]);
    assert SerializeMembers(o, 1) == "";
  }

  /** A one-member object whose key needs no escaping. */
  lemma SerializePlainMember(k: string, v: Value)
    requires forall i | 0 <= i < |k| :: IsPlain(k[i])
    ensures Serialize(JObject([Member(k, v)])) == "{\"" + k + "\":" + Serialize(v) + "}"
  {
    QuotePlain(k);
    SerializeSingleMember(k, v);
  }
}
