/**
 * The handful of JavaScript value semantics the handlers rely on:
 * truthiness and `||` / `??` on possibly-missing strings, `trim`,
 * `toLowerCase`, `includes`, `split(c)[0]`, and the numbers that come out
 * of `parseInt` / `Number` (an integer or NaN).
 *
 * Whitespace is ASCII whitespace and case mapping is ASCII only.
 */
module Js {
  import opened Wrappers

  // ---------------------------------------------------------------------
  // Truthiness of strings
  // ---------------------------------------------------------------------

  /** `!!o` for a string that may be undefined: defined and non-empty. */
  predicate Truthy(o: Option<string>) {
    o.Some? && o.value != ""
  }

  /** `o || fallback` */
  function Or(o: Option<string>, fallback: string): string {
    if Truthy(o) then o.value else fallback
  }

  /** `o ?? fallback`: only a missing value is replaced; an empty string is kept. */
  function Coalesce(o: Option<string>, fallback: string): string {
    match o
    case Some(s) => s
    case None => fallback
  }

  // ---------------------------------------------------------------------
  // Numbers
  // ---------------------------------------------------------------------

  /** A number produced by parsing user input: an integer, or NaN. */
  datatype JsNumber = Num(n: int) | NaN

  /** `x || 0`: NaN (and 0) become 0. */
  function OrZero(x: JsNumber): int {
    match x
    case Num(n) => n
    case NaN => 0
  }

  /** `Math.max(0, x)` on an integer. */
  function ClampZero(n: int): (r: nat)
    ensures r == n || (n < 0 && r == 0)
  {
    if n < 0 then 0 else n
  }

  /** `Math.max(0, x)` on a JavaScript number: NaN propagates. */
  function MaxZero(x: JsNumber): JsNumber {
    match x
    case Num(n) => Num(ClampZero(n))
    case NaN => NaN
  }

  /** Decimal rendering of a non-negative integer, as in a template literal. */
  function NatToString(n: nat): string {
    var digit := "0123456789"[n % 10];
    if n < 10 then [digit] else NatToString(n / 10) + [digit]
  }

  // ---------------------------------------------------------------------
  // Whitespace and trim
  // ---------------------------------------------------------------------

  predicate IsSpace(c: char) {
    c == ' ' || c == '\t' || c == '\n' || c == '\r' || c == '\U{000B}' || c == '\U{000C}'
  }

  predicate AllSpace(s: string) {
    forall i :: 0 <= i < |s| ==> IsSpace(s[i])
  }

  predicate NoSpace(s: string) {
    forall i :: 0 <= i < |s| ==> !IsSpace(s[i])
  }

  /** `trimStart`: the suffix left after dropping the leading whitespace. */
  function TrimStart(s: string): (r: string)
    ensures |r| <= |s| && r == s[|s| - |r|..]
    ensures forall i :: 0 <= i < |s| - |r| ==> IsSpace(s[i])
    ensures r == [] || !IsSpace(r[0])
  {
    if s != [] && IsSpace(s[0]) then
      var r := TrimStart(s[1..]);
      assert s[1..][|s| - 1 - |r|..] == s[|s| - |r|..];
      assert forall i :: 1 <= i < |s| ==> s[i] == s[1..][i - 1];
      r
    else
      assert s[0..] == s;
      s
  }

  /** `trimEnd`: the prefix left after dropping the trailing whitespace. */
  function TrimEnd(s: string): (r: string)
    ensures |r| <= |s| && r == s[..|r|]
    ensures forall i :: |r| <= i < |s| ==> IsSpace(s[i])
    ensures r == [] || !IsSpace(r[|r| - 1])
  {
    if s != [] && IsSpace(s[|s| - 1]) then
      var r := TrimEnd(s[..|s| - 1]);
      assert s[..|s| - 1][..|r|] == s[..|r|];
      r
    else
      assert s[..|s|] == s;
      s
  }

  /** `trim`: a contiguous piece of `s` whose surroundings are all whitespace
      and which neither starts nor ends with whitespace. */
  function Trim(s: string): (r: string)
    ensures r == [] || (!IsSpace(r[0]) && !IsSpace(r[|r| - 1]))
    ensures r == [] <==> AllSpace(s)
  {
    var t := TrimStart(s);
    var r := TrimEnd(t);
    assert (t == []) == AllSpace(s) && (t != [] ==> r != []) by {
      if t == [] {
        assert s[..|s|] == s;
      } else {
        assert s[|s| - |t|] == t[0];
        assert t[0..] == t;
      }
    }
    r
  }

  lemma {:induction false} TrimStartDropsSpaces(a: string, u: string)
    requires AllSpace(a)
    ensures TrimStart(a + u) == TrimStart(u)
  {
    if a != [] {
      assert (a + u)[0] == a[0] && IsSpace(a[0]);
      assert (a + u)[1..] == a[1..] + u;
      calc {
        TrimStart(a + u);
        TrimStart((a + u)[1..]);
        { TrimStartDropsSpaces(a[1..], u); }
        TrimStart(u);
      }
    } else {
      assert a + u == u;
    }
  }

  lemma {:induction false} TrimStartStopsEarly(t: string, b: string)
    requires !AllSpace(t)
    ensures TrimStart(t + b) == TrimStart(t) + b
  {
    if IsSpace(t[0]) {
      assert (t + b)[1..] == t[1..] + b;
      TrimStartStopsEarly(t[1..], b);
    }
  }

  lemma {:induction false} TrimEndDropsSpaces(u: string, b: string)
    requires AllSpace(b)
    ensures TrimEnd(u + b) == TrimEnd(u)
  {
    if b != [] {
      assert (u + b)[|u + b| - 1] == b[|b| - 1] && IsSpace(b[|b| - 1]);
      assert (u + b)[..|u + b| - 1] == u + b[..|b| - 1];
      calc {
        TrimEnd(u + b);
        TrimEnd((u + b)[..|u + b| - 1]);
        { TrimEndDropsSpaces(u, b[..|b| - 1]); }
        TrimEnd(u);
      }
    } else {
      assert u + b == u;
    }
  }

  /** Whitespace around a string never survives `trim`. */
  lemma TrimIgnoresPadding(a: string, t: string, b: string)
    requires AllSpace(a) && AllSpace(b)
    ensures Trim(a + t + b) == Trim(t)
  {
    assert a + t + b == a + (t + b);
    TrimStartDropsSpaces(a, t + b);
    if AllSpace(t) {
      assert AllSpace(t + b);
    } else {
      TrimStartStopsEarly(t, b);
      TrimEndDropsSpaces(TrimStart(t), b);
    }
  }

  // ---------------------------------------------------------------------
  // Case and substrings
  // ---------------------------------------------------------------------

  predicate IsUpper(c: char) {
    'A' <= c <= 'Z'
  }

  /** ASCII `toLowerCase` of one character. */
  function LowerChar(c: char): (d: char)
    ensures !IsUpper(d)
    ensures IsUpper(c) ==> d as int == c as int + 32
    ensures !IsUpper(c) ==> d == c
  {
    if IsUpper(c) then (c as int + 32) as char else c
  }

  /** ASCII `toLowerCase`: same length, each letter lowered, everything else kept. */
  function ToLower(s: string): (r: string)
    ensures |r| == |s|
    ensures forall i :: 0 <= i < |s| ==> r[i] == LowerChar(s[i])
  {
    if s == [] then [] else [LowerChar(s[0])] + ToLower(s[1..])
  }

  /** `needle` occurs in `hay` starting at index `i`. */
  predicate OccursAt(hay: string, needle: string, i: int) {
    0 <= i <= |hay| - |needle| && hay[i..i + |needle|] == needle
  }

  /** `hay.includes(needle)` */
  predicate Contains(hay: string, needle: string) {
    exists i | 0 <= i <= |hay| - |needle| :: OccursAt(hay, needle, i)
  }

  /** `s.split(c)[0]`: everything before the first `c`. */
  function BeforeFirst(s: string, c: char): (r: string)
    ensures |r| <= |s| && r == s[..|r|]
    ensures c !in r
    ensures |r| < |s| ==> s[|r|] == c
  {
    if s == [] || s[0] == c then [] else [s[0]] + BeforeFirst(s[1..], c)
  }

  /** `split(c)[0]` stops at the first `c`. */
  lemma {:induction false} BeforeFirstAt(s: string, c: char, k: nat)
    requires k < |s| && s[k] == c && c !in s[..k]
    ensures BeforeFirst(s, c) == s[..k]
  {
    if k > 0 {
      assert s[0] == s[..k][0];
      assert s[1..][k - 1] == s[k];
      assert s[1..][..k - 1] == s[1..k];
      assert forall x :: x in s[1..k] ==> x in s[..k];
      BeforeFirstAt(s[1..], c, k - 1);
      assert s[..k] == [s[0]] + s[1..k];
    }
  }

  lemma NoSpaceConcat(a: string, b: string)
    ensures NoSpace(a + b) <==> NoSpace(a) && NoSpace(b)
  {
    if NoSpace(a) && NoSpace(b) {
      forall i | 0 <= i < |a + b| ensures !IsSpace((a + b)[i]) {
        if i >= |a| {
          assert (a + b)[i] == b[i - |a|];
        }
      }
    }
    if NoSpace(a + b) {
      forall i | 0 <= i < |a| ensures !IsSpace(a[i]) {
        assert (a + b)[i] == a[i];
      }
      forall i | 0 <= i < |b| ensures !IsSpace(b[i]) {
        assert (a + b)[|a| + i] == b[i];
      }
    }
  }
}
