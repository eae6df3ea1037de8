/** The pure helpers of `Utils` (utils.js): `formatTime`, `clamp`, `randomInt` and `randomFloat`.
    `Math.random()` is the parameter `r`, a draw from [0, 1). */
module Utils {
  import opened Common

  // ---------------------------------------------------------------------------------------------
  // Decimal rendering: JavaScript `String(n)` for a non-negative integer, and `padStart(2, '0')`.

  predicate IsDigit(c: char) { '0' <= c <= '9' }

  predicate AllDigits(s: string) { forall i :: 0 <= i < |s| ==> IsDigit(s[i]) }

  function Digit(d: nat): (c: char)
    requires d < 10
    ensures IsDigit(c)
  {
    (48 + d) as char
  }

  function DigitValue(c: char): nat
    requires IsDigit(c)
  {
    c as nat - 48
  }

  /** `String(n)`: the decimal digits of n, most significant first, without leading zeros. */
  function NatToString(n: nat): (s: string)
    ensures AllDigits(s)
    ensures 1 <= |s|
    ensures n < 10 ==> |s| == 1
    ensures 10 <= n < 100 ==> |s| == 2
    ensures 100 <= n ==> 3 <= |s|
    decreases n
  {
    if n < 10 then [Digit(n)] else NatToString(n / 10) + [Digit(n % 10)]
  }

  /** The value of a string of decimal digits (leading zeros allowed); the reference reading of
      what `NatToString` writes. */
  function ParseDigits(s: string): nat
    requires AllDigits(s)
  {
    if s == [] then 0 else ParseDigits(s[..|s| - 1]) * 10 + DigitValue(s[|s| - 1])
  }

  lemma {:induction false} ParseNatToString(n: nat)
    ensures ParseDigits(NatToString(n)) == n
    decreases n
  {
    var s := NatToString(n);
    if n >= 10 {
      assert s[..|s| - 1] == NatToString(n / 10);
      ParseNatToString(n / 10);
    }
  }

  lemma {:induction false} ParseLeadingZero(s: string)
    requires AllDigits(s)
    ensures AllDigits("0" + s) && ParseDigits("0" + s) == ParseDigits(s)
    decreases |s|
  {
    if s != [] {
      var t := "0" + s;
      assert t[..|t| - 1] == "0" + s[..|s| - 1];
      ParseLeadingZero(s[..|s| - 1]);
    }
  }

  /** `padStart(2, '0')`: prefix zeros up to two characters; longer strings are unchanged. */
  function PadStart2(s: string): (r: string)
    ensures |r| == if |s| < 2 then 2 else |s|
    ensures r[|r| - |s|..] == s
    ensures forall i :: 0 <= i < |r| - |s| ==> r[i] == '0'
  {
    if |s| == 0 then "00" else if |s| == 1 then "0" + s else s
  }

  lemma PadKeepsValue(n: nat)
    ensures AllDigits(PadStart2(NatToString(n)))
    ensures ParseDigits(PadStart2(NatToString(n))) == n
  {
    var s := NatToString(n);
    ParseNatToString(n);
    if |s| == 1 {
      ParseLeadingZero(s);
    }
  }

  // ---------------------------------------------------------------------------------------------
  // formatTime (utils.js:25-32)

  datatype Clock = Clock(days: nat, hours: nat, minutes: nat, seconds: nat)

  /** The four fields `formatTime` computes. JavaScript's `%` and `Math.floor(x / k)` agree with
      Dafny's `%` and `/` on non-negative integers. */
  function Fields(total: nat): (c: Clock)
    ensures c.hours < 24 && c.minutes < 60 && c.seconds < 60
    ensures c.days * 86400 + c.hours * 3600 + c.minutes * 60 + c.seconds == total
  {
    var c := Clock(total / 86400, (total % 86400) / 3600, (total % 3600) / 60, total % 60);
    FieldsSum(total);
    c
  }

  lemma FieldsSum(t: nat)
    ensures (t % 86400) / 3600 < 24
    ensures (t / 86400) * 86400 + ((t % 86400) / 3600) * 3600 + ((t % 3600) / 60) * 60 + t % 60 == t
  {
    var d, r := t / 86400, t % 86400;
    var h, r2 := r / 3600, r % 3600;
    assert r == h * 3600 + r2;
    HoursUnique(t, d * 24 + h, r2);
    var m, s := r2 / 60, r2 % 60;
    assert r2 == m * 60 + s;
    MinutesUnique(t, (d * 24 + h) * 60 + m, s);
  }

  /** The quotient and remainder by 3600 are the only ones in range. */
  lemma HoursUnique(t: int, q: int, r: int)
    requires t == q * 3600 + r && 0 <= r < 3600
    ensures t / 3600 == q && t % 3600 == r
  {
    var q' := t / 3600;
    assert t == q' * 3600 + t % 3600;
    assert (q' - q) * 3600 == r - t % 3600;
  }

  /** The quotient and remainder by 60 are the only ones in range. */
  lemma MinutesUnique(t: int, q: int, r: int)
    requires t == q * 60 + r && 0 <= r < 60
    ensures t / 60 == q && t % 60 == r
  {
    var q' := t / 60;
    assert t == q' * 60 + t % 60;
    assert (q' - q) * 60 == r - t % 60;
  }

  /** `formatTime(totalSeconds)`: "DD:HH:MM:SS", each field zero-padded to at least two digits. */
  function FormatTime(total: nat): string
  {
    var c := Fields(total);
    PadStart2(NatToString(c.days)) + ":" + PadStart2(NatToString(c.hours)) + ":" +
    PadStart2(NatToString(c.minutes)) + ":" + PadStart2(NatToString(c.seconds))
  }

  /** Reads "D...D:HH:MM:SS" (at least two day digits) back into a number of seconds. */
  function ParseTime(s: string): Option<nat>
  {
    if |s| < 11 then None
    else
      var k := |s| - 9;
      if s[k] == ':' && s[k + 3] == ':' && s[k + 6] == ':' &&
         AllDigits(s[..k]) && AllDigits(s[k + 1..k + 3]) && AllDigits(s[k + 4..k + 6]) && AllDigits(s[k + 7..])
      then Some(ParseDigits(s[..k]) * 86400 + ParseDigits(s[k + 1..k + 3]) * 3600 +
                ParseDigits(s[k + 4..k + 6]) * 60 + ParseDigits(s[k + 7..]))
      else None
  }

  /** The rendering loses nothing: reading the string back gives the number of seconds, for
      every non-negative count (day counts of three or more digits included). */
  lemma FormatTimeRoundTrip(total: nat)
    ensures ParseTime(FormatTime(total)) == Some(total)
  {
    var c := Fields(total);
    PadKeepsValue(c.days);
    PadKeepsValue(c.hours);
    PadKeepsValue(c.minutes);
    PadKeepsValue(c.seconds);
    Fields4(PadStart2(NatToString(c.days)), PadStart2(NatToString(c.hours)),
            PadStart2(NatToString(c.minutes)), PadStart2(NatToString(c.seconds)));
  }

  /** Slicing "a:b:c:d" with two-character b, c, d gives back its four parts. */
  lemma Fields4(a: string, b: string, c: string, d: string)
    requires 2 <= |a| && |b| == 2 && |c| == 2 && |d| == 2
    ensures var s := a + ":" + b + ":" + c + ":" + d; var k := |s| - 9;
      && |s| >= 11 && k == |a|
      && s[k] == ':' && s[k + 3] == ':' && s[k + 6] == ':'
      && s[..k] == a && s[k + 1..k + 3] == b && s[k + 4..k + 6] == c && s[k + 7..] == d
  {
  }

  /** Distinct second counts render differently. */
  lemma FormatTimeInjective(a: nat, b: nat)
    requires FormatTime(a) == FormatTime(b)
    ensures a == b
  {
    FormatTimeRoundTrip(a);
    FormatTimeRoundTrip(b);
  }

  /** Below 100 days the display is exactly 11 characters: four two-digit fields and three colons. */
  lemma FormatTimeLength(total: nat)
    requires total < 8640000
    ensures |FormatTime(total)| == 11
    ensures var s := FormatTime(total); s[2] == ':' && s[5] == ':' && s[8] == ':'
  {
    var c := Fields(total);
    assert c.days < 100;
    var pd, ph := PadStart2(NatToString(c.days)), PadStart2(NatToString(c.hours));
    var pm, ps := PadStart2(NatToString(c.minutes)), PadStart2(NatToString(c.seconds));
    assert |pd| == 2;
    Fields4(pd, ph, pm, ps);
    assert FormatTime(total) == pd + ":" + ph + ":" + pm + ":" + ps;
  }

  lemma FormatTenDays()
    ensures FormatTime(864000) == "10:00:00:00"
  {
    var c := Fields(864000);
    assert c == Clock(10, 0, 0, 0);
    assert NatToString(10) == "10";
    assert NatToString(0) == "0";
  }

  lemma FormatZero()
    ensures FormatTime(0) == "00:00:00:00"
  {
    assert Fields(0) == Clock(0, 0, 0, 0);
    assert NatToString(0) == "0";
  }

  // ---------------------------------------------------------------------------------------------
  // clamp (utils.js:37-39), randomInt (utils.js:9-11), randomFloat (utils.js:16-18)

  function Min(a: real, b: real): real { if a <= b then a else b }
  function Max(a: real, b: real): real { if a >= b then a else b }

  /** `Math.max(min, Math.min(max, value))`. With min > max the result is min. */
  function Clamp(value: real, min: real, max: real): (r: real)
    ensures min <= r
    ensures min <= max ==> r <= max
    ensures min <= value <= max ==> r == value
    ensures value < min ==> r == min
    ensures min <= max < value ==> r == max
  {
    Max(min, Min(max, value))
  }

  /** `Math.floor(r * (max - min + 1)) + min` for a draw r in [0, 1). */
  function RandomInt(min: int, max: int, r: real): (n: int)
    requires 0.0 <= r < 1.0
    ensures min <= max ==> min <= n <= max
  {
    Scale(r, (max - min + 1) as real).Floor + min
  }

  /** `Math.random() * (max - min) + min` for a draw r in [0, 1). */
  function RandomFloat(min: real, max: real, r: real): (x: real)
    requires 0.0 <= r < 1.0
    ensures min < max ==> min <= x < max
    ensures min == max ==> x == min
  {
    Scale(r, max - min) + min
  }

  /** A draw `r` in [0, 1) scaled to `r * span`: inside [0, span) for a positive span, 0 for an
      empty one. */
  function Scale(r: real, span: real): (p: real)
    requires 0.0 <= r < 1.0
    ensures span > 0.0 ==> 0.0 <= p < span
    ensures span == 0.0 ==> p == 0.0
  {
    if span > 0.0 then
      var rest := 1.0 - r;
      assert span - r * span == rest * span;
      PositiveProduct(rest, span);
      NonNegativeProduct(r, span);
      r * span
    else r * span
  }

  lemma NonNegativeProduct(a: real, b: real)
    requires a >= 0.0 && b > 0.0
    ensures a * b >= 0.0
  {
  }

  lemma PositiveProduct(a: real, b: real)
    requires a > 0.0 && b > 0.0
    ensures a * b > 0.0
  {
  }

  // ---------------------------------------------------------------------------------------------
  // Removing every occurrence of a value from a list (`Array.prototype.filter` with `!==`)

  /** `list.filter(y => y !== x)`: every element other than `x`, in the original order. */
  function Without<C(==,!new)>(s: seq<C>, x: C): (r: seq<C>)
    ensures x !in r
    decreases |s|
  {
    if s == [] then []
    else
      var rest := Without(s[1..], x);
      if s[0] == x then rest else [s[0]] + rest
  }

  /** The filter drops every copy of `x` and keeps every copy of anything else. */
  lemma {:induction false} WithoutCounts<C(!new)>(s: seq<C>, x: C)
    ensures forall y :: y != x ==> multiset(Without(s, x))[y] == multiset(s)[y]
    ensures |Without(s, x)| == |s| - multiset(s)[x]
    decreases |s|
  {
    if s != [] {
      WithoutCounts(s[1..], x);
      assert s == [s[0]] + s[1..];
    }
  }

  /** The filter keeps the relative order: it distributes over concatenation. */
  lemma {:induction false} WithoutConcat<C(!new)>(a: seq<C>, b: seq<C>, x: C)
    ensures Without(a + b, x) == Without(a, x) + Without(b, x)
    decreases |a|
  {
    if a != [] {
      assert (a + b)[0] == a[0];
      assert (a + b)[1..] == a[1..] + b;
      WithoutConcat(a[1..], b, x);
    } else {
      assert a + b == b;
    }
  }

  /** A list without `x` passes the filter unchanged. */
  lemma {:induction false} WithoutAbsent<C(!new)>(s: seq<C>, x: C)
    requires x !in s
    ensures Without(s, x) == s
    decreases |s|
  {
    if s != [] {
      WithoutAbsent(s[1..], x);
    }
  }

  predicate Distinct<C(==)>(s: seq<C>)
  {
    forall i, j :: 0 <= i < j < |s| ==> s[i] != s[j]
  }

  /** The filter keeps exactly the other elements, and keeps a list free of repeats. */
  lemma {:induction false} WithoutMembers<C(!new)>(s: seq<C>, x: C)
    ensures forall y :: y in Without(s, x) <==> y in s && y != x
    ensures Distinct(s) ==> Distinct(Without(s, x))
    decreases |s|
  {
    if s != [] {
      WithoutMembers(s[1..], x);
      assert s == [s[0]] + s[1..];
      if Distinct(s) {
        assert Distinct(s[1..]);
        assert s[0] !in s[1..];
      }
    }
  }
}
