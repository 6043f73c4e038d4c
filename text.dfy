/** The string operations the source uses: `toLowerCase` (ASCII letters
    only), `includes`, `replace(/-/g, '')`, JavaScript truthiness of an
    optional string with `||`, and the decimal rendering of a number inside
    a template literal. */
module Text {
  import opened Common

  /** ASCII lower-casing of one character; every other character is kept. */
  function LowerChar(c: char): char
  {
    if 'A' <= c <= 'Z' then (c as int + 32) as char else c
  }

  /** `s.toLowerCase()`, restricted to ASCII letters. */
  function Lower(s: string): (r: string)
    ensures |r| == |s|
    ensures forall i :: 0 <= i < |s| ==> r[i] == LowerChar(s[i])
  {
    if s == [] then [] else [LowerChar(s[0])] + Lower(s[1..])
  }

  /** `a.toLowerCase() === b.toLowerCase()`. */
  predicate EqualIgnoringCase(a: string, b: string)
  {
    Lower(a) == Lower(b)
  }

  /** Lower-casing twice is lower-casing once. */
  lemma LowerIdempotent(s: string)
    ensures Lower(Lower(s)) == Lower(s)
  {
    assert forall i :: 0 <= i < |s| ==> LowerChar(LowerChar(s[i])) == LowerChar(s[i]);
  }

  /** `hay.includes(needle)`: `needle` occurs somewhere in `hay`. */
  function Contains(hay: string, needle: string): (r: bool)
    ensures r <==> exists i :: 0 <= i <= |hay| && needle <= hay[i..]
  {
    if needle <= hay then
      assert needle <= hay[0..];
      true
    else if hay == [] then
      false
    else
      var r := Contains(hay[1..], needle);
      assert forall i :: 1 <= i <= |hay| ==> hay[i..] == hay[1..][i - 1..];
      r
  }

  /** The empty string occurs in every string. */
  lemma EmptyOccursEverywhere(hay: string)
    ensures Contains(hay, "")
  {
    assert "" <= hay[0..];
  }

  /** A string occurs in any string built around it. */
  lemma OccursInside(a: string, b: string, c: string)
    ensures Contains(a + b + c, b)
  {
    assert b <= (a + b + c)[|a|..];
  }

  predicate NotHyphen(c: char)
  {
    c != '-'
  }

  /** `s.replace(/-/g, '')`: every hyphen removed, the rest kept in order. */
  function StripHyphens(s: string): (r: string)
    ensures '-' !in r
    ensures forall i :: 0 <= i < |s| && s[i] != '-' ==> s[i] in r
  {
    Filter(s, NotHyphen)
  }

  /** Where the hyphens stood does not matter once they are stripped. */
  lemma {:induction false} HyphenPlacementIgnored(a: string, b: string)
    ensures StripHyphens(a + "-" + b) == StripHyphens(a + b)
  {
    var hyphen := "-";
    assert hyphen[1..] == [];
    assert Filter(hyphen, NotHyphen) == [];
    calc {
      StripHyphens(a + hyphen + b);
      { FilterConcat(a + hyphen, b, NotHyphen); }
      Filter(a + hyphen, NotHyphen) + Filter(b, NotHyphen);
      { FilterConcat(a, hyphen, NotHyphen); }
      Filter(a, NotHyphen) + Filter(hyphen, NotHyphen) + Filter(b, NotHyphen);
      Filter(a, NotHyphen) + Filter(b, NotHyphen);
      { FilterConcat(a, b, NotHyphen); }
      StripHyphens(a + b);
    }
  }

  /** A present string that is not empty (JavaScript truthiness). */
  predicate Truthy(o: Option<string>)
  {
    o.Some? && o.value != ""
  }

  /** `o || fallback`. */
  function OrElse(o: Option<string>, fallback: string): (r: string)
    ensures fallback != "" ==> r != ""
    ensures r == fallback || (Truthy(o) && r == o.value)
  {
    if Truthy(o) then o.value else fallback
  }

  /** The first element of a list, as `list?.[0]` reads it. */
  function Head(s: seq<string>): (r: Option<string>)
    ensures r.Some? <==> |s| > 0
    ensures r.Some? ==> r.value == s[0]
  {
    if |s| > 0 then Some(s[0]) else None
  }

  function DigitChar(d: nat): char
    requires d < 10
  {
    ('0' as int + d) as char
  }

  /** The decimal digits of `n`, as a template literal renders a number. */
  function DecimalString(n: nat): (r: string)
    ensures |r| > 0
    ensures forall i :: 0 <= i < |r| ==> '0' <= r[i] <= '9'
    ensures |r| == 1 <==> n < 10
    ensures r[0] == '0' ==> n == 0
    ensures |r| > 1 ==> r[0] != '0'
  {
    if n < 10 then [DigitChar(n)] else DecimalString(n / 10) + [DigitChar(n % 10)]
  }

  /** The number a string of decimal digits denotes. */
  function DecimalValue(s: string): nat
    requires forall i :: 0 <= i < |s| ==> '0' <= s[i] <= '9'
  {
    if s == [] then 0
    else DecimalValue(s[..|s| - 1]) * 10 + (s[|s| - 1] as int - '0' as int)
  }

  /** Rendering a number and reading it back gives the number. */
  lemma {:induction false} DecimalRoundTrip(n: nat)
    ensures DecimalValue(DecimalString(n)) == n
  {
    if n >= 10 {
      var prefix := DecimalString(n / 10);
      var s := prefix + [DigitChar(n % 10)];
      assert s[..|s| - 1] == prefix;
      DecimalRoundTrip(n / 10);
    }
  }
}
