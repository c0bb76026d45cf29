/** Small building blocks shared by every part of the storefront model: optional
    values, the JavaScript library behaviour the code calls into (lower-casing,
    locale collation, locale number formatting, number/string conversion),
    `Array.prototype.filter` and `String.prototype.includes`. */
module Prelude {

  /** `T | null | undefined` in the source. */
  datatype Option<T> = None | Some(value: T) {
    /** `x ?? d` */
    function GetOr(d: T): T {
      if Some? then value else d
    }
  }

  /** The library calls the storefront leaves to the JavaScript runtime, kept
      uninterpreted: `toLowerCase`, `localeCompare(…, "es")` and
      `toLocaleString("es-AR")`.  Collation is given by a real-valued key: every
      total preorder on strings is induced by such a key, and `localeCompare`
      answers the sign of the difference of the two keys. */
  datatype Locale = Locale(lower: string -> string, collate: string -> real, format: int -> string)

  function Sign(x: real): (r: int)
    ensures r == -1 || r == 0 || r == 1
    ensures r < 0 <==> x < 0.0
    ensures r == 0 <==> x == 0.0
  {
    if x < 0.0 then -1 else if x == 0.0 then 0 else 1
  }

  /** `a.localeCompare(b, "es")` */
  function LocaleCompare(loc: Locale, a: string, b: string): (r: int)
    ensures r < 0 <==> loc.collate(a) < loc.collate(b)
    ensures r == 0 <==> loc.collate(a) == loc.collate(b)
  {
    Sign(loc.collate(a) - loc.collate(b))
  }

  /** `Array.prototype.filter`: the elements satisfying `f`, in their order. */
  function Keep<T(==,!new)>(s: seq<T>, f: T -> bool): (r: seq<T>)
    ensures |r| <= |s|
    ensures forall k :: 0 <= k < |r| ==> f(r[k])
  {
    if s == [] then []
    else (if f(s[0]) then [s[0]] else []) + Keep(s[1..], f)
  }

  /** Filtering keeps each passing element as often as it occurs, and drops
      every other. */
  lemma {:induction false} KeepCount<T(!new)>(s: seq<T>, f: T -> bool)
    ensures forall x :: multiset(Keep(s, f))[x] == if f(x) then multiset(s)[x] else 0
  {
    if s != [] {
      KeepCount(s[1..], f);
      assert s == [s[0]] + s[1..];
    }
  }

  lemma {:induction false} KeepAppend<T(!new)>(a: seq<T>, b: seq<T>, f: T -> bool)
    ensures Keep(a + b, f) == Keep(a, f) + Keep(b, f)
  {
    if a == [] {
      assert a + b == b;
    } else {
      assert (a + b)[1..] == a[1..] + b;
      KeepAppend(a[1..], b, f);
    }
  }

  /** Filtering keeps an element iff it satisfies the predicate. */
  lemma KeepMembership<T(!new)>(s: seq<T>, f: T -> bool, x: T)
    ensures x in Keep(s, f) <==> x in s && f(x)
  {
    KeepCount(s, f);
    assert x in Keep(s, f) <==> multiset(Keep(s, f))[x] > 0;
    assert x in s <==> multiset(s)[x] > 0;
  }

  /** Filtering with a predicate every element satisfies changes nothing. */
  lemma {:induction false} KeepAll<T(!new)>(s: seq<T>, f: T -> bool)
    requires forall k :: 0 <= k < |s| ==> f(s[k])
    ensures Keep(s, f) == s
  {
    if s != [] {
      KeepAll(s[1..], f);
      assert s == [s[0]] + s[1..];
    }
  }

  /** `q` occurs in `s` starting at position `i`. */
  predicate OccursAt(s: string, q: string, i: nat) {
    i + |q| <= |s| && s[i..i + |q|] == q
  }

  /** `s.includes(q)`: `q` occurs in `s` as a contiguous block. */
  predicate Contains(s: string, q: string) {
    exists i: nat :: i <= |s| && OccursAt(s, q, i)
  }

  /* ── number ⇄ string: `String(n)` / template literals, and `Number(s)` ── */

  function DigitChar(d: nat): (c: char)
    requires d < 10
    ensures '0' <= c <= '9' && c as int - '0' as int == d
  {
    ('0' as int + d) as char
  }

  predicate IsDigit(c: char) {
    '0' <= c <= '9'
  }

  /** Decimal digits of a natural number, most significant first, no leading zero. */
  function Digits(n: nat): (s: string)
    ensures |s| >= 1
    ensures forall k :: 0 <= k < |s| ==> IsDigit(s[k])
    decreases n
  {
    if n < 10 then [DigitChar(n)] else Digits(n / 10) + [DigitChar(n % 10)]
  }

  /** `String(n)` for an integral number. */
  function Decimal(n: int): string {
    if n < 0 then "-" + Digits(-n) else Digits(n)
  }

  /** The value of a non-empty run of decimal digits. */
  function DigitsValue(s: string): nat
    requires forall k :: 0 <= k < |s| ==> IsDigit(s[k])
    decreases |s|
  {
    if s == [] then 0
    else
      var last := s[|s| - 1];
      assert IsDigit(last);
      DigitsValue(s[..|s| - 1]) * 10 + (last as int - '0' as int)
  }

  /** `Number(s)` on the strings the model needs: an optional minus sign
      followed by decimal digits.  `None` stands for `NaN`. */
  function ParseNumber(s: string): Option<int> {
    if |s| >= 2 && s[0] == '-' && forall k :: 1 <= k < |s| ==> IsDigit(s[k]) then
      Some(-(DigitsValue(s[1..]) as int))
    else if |s| >= 1 && forall k :: 0 <= k < |s| ==> IsDigit(s[k]) then
      Some(DigitsValue(s))
    else
      None
  }

  lemma {:induction false} DigitsRoundTrip(n: nat)
    ensures DigitsValue(Digits(n)) == n
    decreases n
  {
    if n >= 10 {
      var s := Digits(n);
      assert s[..|s| - 1] == Digits(n / 10);
      DigitsRoundTrip(n / 10);
    }
  }

  /** `Number(String(n)) === n` for every integer. */
  lemma DecimalRoundTrip(n: int)
    ensures ParseNumber(Decimal(n)) == Some(n)
  {
    var s := Decimal(n);
    if n < 0 {
      assert s == "-" + Digits(-n);
      assert s[1..] == Digits(-n);
      assert forall k :: 1 <= k < |s| ==> IsDigit(s[k]) by {
        forall k | 1 <= k < |s| ensures IsDigit(s[k]) {
          assert s[k] == Digits(-n)[k - 1];
        }
      }
      DigitsRoundTrip(-n);
    } else {
      assert s == Digits(n);
      assert IsDigit(s[0]);
      DigitsRoundTrip(n);
    }
  }

  lemma DecimalInjective(m: int, n: int)
    requires Decimal(m) == Decimal(n)
    ensures m == n
  {
    DecimalRoundTrip(m);
    DecimalRoundTrip(n);
  }
}
