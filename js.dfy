/**
  * The JavaScript built-ins the player's logic relies on, with the behaviour
  * the source depends on written out: `Array.prototype.filter` and `slice`,
  * the truncating `%` operator, `String.prototype.toLowerCase` (ASCII letters),
  * `includes`, `padStart`, and `Number.prototype.toString` for whole numbers.
  */
module Js {

  /** A number the formatters receive: either NaN or a whole, non-negative count of seconds. */
  datatype Numeric = NaN | Whole(value: nat)

  function Min(a: int, b: int): int
  {
    if a <= b then a else b
  }

  // ---------------------------------------------------------------------------
  // Arrays

  /** `s.filter(keep)`: the elements satisfying `keep`, in their original order. */
  function Filter<T(!new)>(s: seq<T>, keep: T -> bool): (r: seq<T>)
    ensures |r| <= |s|
    ensures forall x :: x in r <==> x in s && keep(x)
  {
    if s == [] then []
    else if keep(s[0]) then [s[0]] + Filter(s[1..], keep)
    else Filter(s[1..], keep)
  }

  /** Filtering distributes over concatenation, so relative order is kept. */
  lemma {:induction false} FilterConcat<T(!new)>(a: seq<T>, b: seq<T>, keep: T -> bool)
    ensures Filter(a + b, keep) == Filter(a, keep) + Filter(b, keep)
  {
    if a == [] {
      assert a + b == b;
    } else {
      assert (a + b)[0] == a[0];
      assert (a + b)[1..] == a[1..] + b;
      FilterConcat(a[1..], b, keep);
    }
  }

  /** Filtering with a test every element passes changes nothing. */
  lemma {:induction false} FilterKeepsAll<T(!new)>(s: seq<T>, keep: T -> bool)
    requires forall x :: x in s ==> keep(x)
    ensures Filter(s, keep) == s
  {
    if s != [] {
      assert forall x :: x in s[1..] ==> x in s;
      FilterKeepsAll(s[1..], keep);
    }
  }

  /** `s.slice(start, end)` for non-negative bounds: both are clamped to the length. */
  function Slice<T>(s: seq<T>, start: nat, end: nat): (r: seq<T>)
    ensures |r| == if start < end && start < |s| then Min(end, |s|) - start else 0
    ensures forall i :: 0 <= i < |r| ==> r[i] == s[start + i]
  {
    var lo := Min(start, |s|);
    var hi := Min(end, |s|);
    if lo < hi then s[lo..hi] else []
  }

  // ---------------------------------------------------------------------------
  // Numbers

  /**
    * `a % n` as JavaScript computes it: the remainder takes the sign of `a`
    * (Dafny's own `%` never returns a negative value).
    */
  function JsRem(a: int, n: int): (r: int)
    requires n > 0
    ensures -n < r < n
    ensures a >= 0 ==> r == a % n
    ensures a <= 0 ==> r <= 0
  {
    if a >= 0 then a % n else -((-a) % n)
  }

  /** The decimal digit character of a value below ten. */
  function DigitChar(d: nat): char
    requires d < 10
  {
    ('0' as int + d) as char
  }

  predicate IsDigit(c: char)
  {
    '0' <= c <= '9'
  }

  predicate IsDigits(s: string)
  {
    forall i :: 0 <= i < |s| ==> IsDigit(s[i])
  }

  /** The value of a string of decimal digits, read most significant digit first. */
  function DigitsValue(s: string): nat
    requires IsDigits(s)
  {
    if s == [] then 0
    else DigitsValue(s[..|s| - 1]) * 10 + (s[|s| - 1] as int - '0' as int)
  }

  /** A leading zero does not change the value of a digit string. */
  lemma {:induction false} DigitsValueLeadingZero(s: string)
    requires IsDigits(s)
    ensures IsDigits("0" + s) && DigitsValue("0" + s) == DigitsValue(s)
  {
    var t := "0" + s;
    if s == [] {
      assert t[..0] == [];
    } else {
      assert t[..|t| - 1] == "0" + s[..|s| - 1];
      DigitsValueLeadingZero(s[..|s| - 1]);
    }
  }

  /**
    * `n.toString()` for a whole number: the shortest decimal spelling of `n`,
    * with no leading zero, that reads back as `n`.
    */
  function NatToString(n: nat): (r: string)
    ensures |r| >= 1 && IsDigits(r)
    ensures |r| > 1 ==> r[0] != '0'
    ensures DigitsValue(r) == n
    ensures n < 10 <==> |r| == 1
  {
    if n < 10 then [DigitChar(n)]
    else
      var prefix := NatToString(n / 10);
      var r := prefix + [DigitChar(n % 10)];
      assert r[..|r| - 1] == prefix;
      r
  }

  // ---------------------------------------------------------------------------
  // Strings

  /** A copy of `c` repeated `n` times. */
  function Repeat(c: char, n: nat): (r: string)
    ensures |r| == n && forall i :: 0 <= i < n ==> r[i] == c
  {
    if n == 0 then [] else [c] + Repeat(c, n - 1)
  }

  /** `s.padStart(width, pad)` with a one-character pad string. */
  function PadStart(s: string, width: nat, pad: char): (r: string)
    ensures |r| == if |s| >= width then |s| else width
    ensures r[|r| - |s|..] == s
    ensures forall i :: 0 <= i < |r| - |s| ==> r[i] == pad
  {
    if |s| >= width then s else Repeat(pad, width - |s|) + s
  }

  /** `c.toLowerCase()` for the ASCII letters; every other character is unchanged. */
  function LowerChar(c: char): char
  {
    if 'A' <= c <= 'Z' then (c as int + 32) as char else c
  }

  /** `s.toLowerCase()`, character by character. */
  function ToLower(s: string): (r: string)
    ensures |r| == |s|
    ensures forall i :: 0 <= i < |s| ==> !('A' <= r[i] <= 'Z')
    ensures forall i :: 0 <= i < |s| ==> r[i] == s[i] || ('A' <= s[i] <= 'Z' && r[i] as int == s[i] as int + 32)
  {
    seq(|s|, i requires 0 <= i < |s| => LowerChar(s[i]))
  }

  /** `t` occurs in `s` starting at position `i`. */
  predicate OccursAt(s: string, t: string, i: nat)
  {
    i + |t| <= |s| && s[i..i + |t|] == t
  }

  /** `s.includes(t)`, scanning `s` from the left. */
  function Includes(s: string, t: string): (r: bool)
    ensures r <==> exists i: nat :: OccursAt(s, t, i)
  {
    if t <= s then
      assert OccursAt(s, t, 0);
      true
    else if s == [] then
      assert forall i: nat :: !OccursAt(s, t, i);
      false
    else
      var r := Includes(s[1..], t);
      assert forall i: nat :: OccursAt(s[1..], t, i) ==> OccursAt(s, t, i + 1);
      assert forall i: nat :: 0 < i && OccursAt(s, t, i) ==> OccursAt(s[1..], t, i - 1);
      r
  }
}
