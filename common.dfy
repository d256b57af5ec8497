/** Values and helpers shared by the client and the server models: an option type,
    a JSON value, JavaScript truthiness, ASCII case mapping, string prefix and
    substring tests, and an order-preserving filter that keeps every passing element as often as it
    occurs. */
module Common {

  datatype Option<+T> = None | Some(value: T)

  /** A JSON value as JSON.parse produces it. Numbers are integers here.
      A raw (unparsed) text is the JSON string JStr(text): in JavaScript the two
      are the same value. */
  datatype Json =
    | JNull
    | JBool(b: bool)
    | JNum(n: int)
    | JStr(s: string)
    | JArr(items: seq<Json>)
    | JObj(fields: map<string, Json>)

  /** JavaScript truthiness of a JSON value. */
  predicate Truthy(j: Json) {
    match j
    case JNull => false
    case JBool(b) => b
    case JNum(n) => n != 0
    case JStr(s) => s != ""
    case JArr(_) => true
    case JObj(_) => true
  }

  /** `value?.[key]`: a field of an object, undefined for every other value. */
  function Field(j: Json, key: string): (r: Option<Json>)
    ensures r.Some? <==> j.JObj? && key in j.fields
    ensures r.Some? ==> r.value == j.fields[key]
  {
    if j.JObj? && key in j.fields then Some(j.fields[key]) else None
  }

  /** Truthiness of a possibly undefined value. */
  predicate OptTruthy(o: Option<Json>) {
    o.Some? && Truthy(o.value)
  }

  /** `text || fallback` on strings. */
  function OrText(s: string, fallback: string): (r: string)
    ensures s != "" ==> r == s
    ensures s == "" ==> r == fallback
  {
    if s != "" then s else fallback
  }

  /** `n || fallback` on numbers. */
  function OrNum(n: int, fallback: int): (r: int)
    ensures n != 0 ==> r == n
    ensures n == 0 ==> r == fallback
  {
    if n != 0 then n else fallback
  }

  /** The result of JSON.parse on a text: the parsed value when the parser
      accepts it, otherwise the raw text itself (the try/catch fallback used on
      every path of the system). */
  function ParseOrRaw(parse: string -> Option<Json>, text: string): (r: Json)
    ensures parse(text).Some? ==> r == parse(text).value
    ensures parse(text).None? ==> r == JStr(text)
  {
    match parse(text)
    case Some(v) => v
    case None => JStr(text)
  }

  // ---------------------------------------------------------------------------
  // Strings

  /** `s.startsWith(p)`: a literal prefix test. */
  predicate StartsWith(s: string, p: string) {
    |p| <= |s| && s[..|p|] == p
  }

  /** `s.includes(t)`: t occurs in s at some position. */
  predicate Contains(s: string, t: string) {
    exists i | 0 <= i <= |s| - |t| :: OccursAt(s, t, i)
  }

  predicate OccursAt(s: string, t: string, i: int) {
    0 <= i <= |s| - |t| && s[i..i + |t|] == t
  }

  /** `s.length`: the number of UTF-16 code units, two for each character
      outside the Basic Multilingual Plane. */
  function Utf16Length(s: string): (n: nat)
    ensures |s| <= n <= 2 * |s|
    ensures (forall i :: 0 <= i < |s| ==> (s[i] as int) < 0x1_0000) ==> n == |s|
  {
    if s == [] then 0 else (if (s[0] as int) < 0x1_0000 then 1 else 2) + Utf16Length(s[1..])
  }

  /** An emoji counts as two units, an ASCII letter as one. */
  lemma Utf16LengthExample()
    ensures Utf16Length("a\U{1F600}") == 3
  {
    assert "a\U{1F600}"[1..] == "\U{1F600}";
    assert "\U{1F600}"[1..] == "";
  }

  function LowerChar(c: char): char {
    if 'A' <= c <= 'Z' then (c as int + 32) as char else c
  }

  function UpperChar(c: char): char {
    if 'a' <= c <= 'z' then (c as int - 32) as char else c
  }

  /** `s.toLowerCase()`, on ASCII letters. */
  function ToLower(s: string): (r: string)
    ensures |r| == |s|
    ensures forall i :: 0 <= i < |s| ==> r[i] == LowerChar(s[i])
  {
    seq(|s|, i requires 0 <= i < |s| => LowerChar(s[i]))
  }

  /** `s.toUpperCase()`, on ASCII letters. */
  function ToUpper(s: string): (r: string)
    ensures |r| == |s|
    ensures forall i :: 0 <= i < |s| ==> r[i] == UpperChar(s[i])
  {
    seq(|s|, i requires 0 <= i < |s| => UpperChar(s[i]))
  }

  /** The methods that carry a body, as both halves spell them once upper-cased
      (client/src/components/HTTPClient.js:78 and server/index.js:69). */
  predicate IsBodyMethod(upper: string) {
    upper == "POST" || upper == "PUT" || upper == "PATCH"
  }

  predicate IsLowerWord(w: string) {
    forall i :: 0 <= i < |w| ==> 'a' <= w[i] <= 'z'
  }

  /** For a lower-case letter l, a character lowers to l exactly when it
      uppers to l's capital. */
  lemma CharFoldAgree(c: char, l: char)
    requires 'a' <= l <= 'z'
    ensures LowerChar(c) == l <==> UpperChar(c) == UpperChar(l)
  {
  }

  /** Comparing the lower-cased text with a lower-case word is the same test as
      comparing the upper-cased text with that word's capitals. */
  lemma {:induction false} CaseFoldAgree(m: string, w: string)
    requires IsLowerWord(w)
    ensures ToLower(m) == w <==> ToUpper(m) == ToUpper(w)
  {
    if |m| == |w| {
      if ToLower(m) == w {
        forall i | 0 <= i < |m| ensures ToUpper(m)[i] == ToUpper(w)[i] {
          CharFoldAgree(m[i], w[i]);
        }
        assert ToUpper(m) == ToUpper(w);
      }
      if ToUpper(m) == ToUpper(w) {
        forall i | 0 <= i < |m| ensures ToLower(m)[i] == w[i] {
          CharFoldAgree(m[i], w[i]);
        }
        assert ToLower(m) == w;
      }
    } else {
      assert |ToLower(m)| != |w| && |ToUpper(m)| != |ToUpper(w)|;
    }
  }

  // ---------------------------------------------------------------------------
  // Sequences

  /** a is b with some elements left out, the rest in their original order. */
  ghost predicate SubsequenceOf<T>(a: seq<T>, b: seq<T>)
    decreases |b|
  {
    if a == [] then true
    else if b == [] then false
    else (a[0] == b[0] && SubsequenceOf(a[1..], b[1..])) || SubsequenceOf(a, b[1..])
  }

  /** `s.filter(p)`. */
  function Filter<T(==)>(s: seq<T>, p: T -> bool): (r: seq<T>)
    ensures |r| <= |s|
    ensures forall i :: 0 <= i < |r| ==> r[i] in s && p(r[i])
    ensures forall i :: 0 <= i < |s| && p(s[i]) ==> s[i] in r
    ensures SubsequenceOf(r, s)
    ensures (forall i :: 0 <= i < |s| ==> p(s[i])) ==> r == s
    ensures forall i :: 0 <= i < |s| ==> multiset(r)[s[i]] == if p(s[i]) then multiset(s)[s[i]] else 0
  {
    assert s != [] ==> s == [s[0]] + s[1..];
    if s == [] then []
    else if p(s[0]) then
      var rest := Filter(s[1..], p);
      assert ([s[0]] + rest)[1..] == rest;
      [s[0]] + rest
    else
      Filter(s[1..], p)
  }

  /** Two filters whose predicates never hold together keep at most as many
      elements between them as the sequence has. */
  lemma {:induction false} DisjointFilters<T>(s: seq<T>, p: T -> bool, q: T -> bool)
    requires forall i :: 0 <= i < |s| && p(s[i]) ==> !q(s[i])
    ensures |Filter(s, p)| + |Filter(s, q)| <= |s|
  {
    if s != [] {
      DisjointFilters(s[1..], p, q);
    }
  }
}
