/** Human-readable sequential ids: a prefix followed by `String(n).padStart(3, '0')`,
    where n is the collection length plus one at the moment of creation. */
module Ids {
  import opened Types

  predicate IsDigit(c: char) { '0' <= c <= '9' }

  predicate AllDigits(s: string) { forall i :: 0 <= i < |s| ==> IsDigit(s[i]) }

  function DigitChar(d: nat): (c: char)
    requires d < 10
    ensures IsDigit(c) && (c as int) - ('0' as int) == d
  {
    (('0' as int) + d) as char
  }

  function DigitValue(c: char): nat
    requires IsDigit(c)
  {
    (c as int) - ('0' as int)
  }

  /** `String(n)` for a natural number: a non-empty run of decimal digits, without leading
      zeros, longer than one digit exactly from 10 on. */
  function Decimal(n: nat): (s: string)
    ensures 1 <= |s| && AllDigits(s)
    ensures n >= 10 <==> |s| > 1
    decreases n
  {
    if n < 10 then [DigitChar(n)] else Decimal(n / 10) + [DigitChar(n % 10)]
  }

  /** `s.padStart(width, fill)`: `s` itself when it is long enough, otherwise `s` preceded by
      exactly as many `fill` characters as make it `width` long. */
  function PadStart(s: string, width: nat, fill: char): (r: string)
    ensures |r| == if |s| >= width then |s| else width
    ensures forall i :: 0 <= i < |r| - |s| ==> r[i] == fill
  {
    if |s| >= width then s else seq(width - |s|, _ => fill) + s
  }

  /** Padding only ever adds characters in front: the padded string ends with `s`. */
  lemma PadStartSuffix(s: string, width: nat, fill: char)
    ensures var r := PadStart(s, width, fill); r[|r| - |s|..] == s
  {
  }

  /** `String(n).padStart(3, '0')`: at least three digits. */
  function Pad3(n: nat): (p: string)
    ensures |p| >= 3 && AllDigits(p)
  {
    PadStart(Decimal(n), 3, '0')
  }

  /** The id the store gives the n-th record of a collection, e.g. FormatId("I", 7) == "I007":
      the prefix followed by at least three digits. */
  function FormatId(prefix: string, n: nat): (id: string)
    ensures |id| >= |prefix| + 3
    ensures id[..|prefix|] == prefix
  {
    prefix + Pad3(n)
  }

  /** Reading a run of decimal digits (leading zeros allowed) left to right. */
  function DigitsValue(s: string): nat
    requires AllDigits(s)
  {
    if s == [] then 0 else DigitsValue(s[..|s| - 1]) * 10 + DigitValue(s[|s| - 1])
  }

  /** The sequence number of an id `prefix + digits`, or None when `id` has another shape. Every
      well-formed id with exactly three digits is the id FormatId gives its number. */
  function ParseId(prefix: string, id: string): (r: Option<nat>)
    ensures r.Some? ==> |prefix| < |id| && id[..|prefix|] == prefix
    ensures r.Some? && |id| == |prefix| + 3 ==> r.value < 1000 && FormatId(prefix, r.value) == id
  {
    if |prefix| < |id| && id[..|prefix|] == prefix && AllDigits(id[|prefix|..])
    then
      var d := id[|prefix|..];
      ThreeDigitsCanonical(d);
      assert |d| == 3 ==> id == prefix + d;
      Some(DigitsValue(d))
    else None
  }

  lemma DigitCharValue(c: char)
    requires IsDigit(c)
    ensures DigitChar(DigitValue(c)) == c
  {
  }

  lemma DivMod10(q: nat, r: nat)
    requires r < 10
    ensures (q * 10 + r) / 10 == q && (q * 10 + r) % 10 == r
  {
  }

  lemma DecimalStep(q: nat, r: nat)
    requires r < 10 && q > 0
    ensures Decimal(q * 10 + r) == Decimal(q) + [DigitChar(r)]
  {
    DivMod10(q, r);
  }

  lemma Concat3(x: char, y: char, z: char)
    ensures [x, y] + [z] == [x, y, z]
  {
  }

  lemma ZeroPadded(y: char, z: char)
    ensures seq(1, _ => '0') + [y, z] == ['0', y, z]
    ensures seq(2, _ => '0') + [z] == ['0', '0', z]
  {
  }

  /** The decimal rendering of a number from 100 to 999 with digits a, b, c. */
  lemma DecimalThreeDigits(a: nat, b: nat, c: nat)
    requires 0 < a < 10 && b < 10 && c < 10
    ensures Decimal((a * 10 + b) * 10 + c) == [DigitChar(a), DigitChar(b), DigitChar(c)]
  {
    DecimalTwoDigits(a, b);
    DecimalStep(a * 10 + b, c);
    Concat3(DigitChar(a), DigitChar(b), DigitChar(c));
  }

  /** The decimal rendering of a number from 10 to 99 with digits b, c. */
  lemma DecimalTwoDigits(b: nat, c: nat)
    requires 0 < b < 10 && c < 10
    ensures Decimal(b * 10 + c) == [DigitChar(b), DigitChar(c)]
  {
    DecimalStep(b, c);
  }

  /** Padding a number below 1000 written with digits a, b, c gives exactly those three digits. */
  lemma Pad3Below1000(a: nat, b: nat, c: nat)
    requires a < 10 && b < 10 && c < 10
    ensures Pad3((a * 10 + b) * 10 + c) == [DigitChar(a), DigitChar(b), DigitChar(c)]
  {
    ZeroPadded(DigitChar(b), DigitChar(c));
    if a > 0 {
      DecimalThreeDigits(a, b, c);
    } else if b > 0 {
      assert (a * 10 + b) * 10 + c == b * 10 + c;
      DecimalTwoDigits(b, c);
    } else {
      assert (a * 10 + b) * 10 + c == c;
    }
  }

  /** Three digits read left to right. */
  lemma ThreeDigitsValue(d: string)
    requires |d| == 3 && AllDigits(d)
    ensures DigitsValue(d) == (DigitValue(d[0]) * 10 + DigitValue(d[1])) * 10 + DigitValue(d[2])
  {
    var d1, d2 := d[..1], d[..2];
    assert d1[..0] == [] && d1[0] == d[0];
    assert d2[..1] == d1 && d2[1] == d[1];
    assert d[..|d| - 1] == d2;
    assert DigitsValue(d1) == DigitValue(d[0]);
    assert DigitsValue(d2) == DigitValue(d[0]) * 10 + DigitValue(d[1]);
  }

  /** Three digits read as a number below 1000, and padding that number gives the digits back. */
  lemma ThreeDigitsCanonical(d: string)
    ensures |d| == 3 && AllDigits(d) ==> DigitsValue(d) < 1000 && Pad3(DigitsValue(d)) == d
  {
    if |d| == 3 && AllDigits(d) {
      var a, b, c := DigitValue(d[0]), DigitValue(d[1]), DigitValue(d[2]);
      ThreeDigitsValue(d);
      Pad3Below1000(a, b, c);
      DigitCharValue(d[0]);
      DigitCharValue(d[1]);
      DigitCharValue(d[2]);
      assert d == [d[0], d[1], d[2]];
    }
  }

  lemma {:induction false} DecimalRoundTrip(n: nat)
    ensures AllDigits(Decimal(n)) && DigitsValue(Decimal(n)) == n
    decreases n
  {
    if n >= 10 {
      var s := Decimal(n / 10) + [DigitChar(n % 10)];
      DecimalRoundTrip(n / 10);
      assert s[..|s| - 1] == Decimal(n / 10);
    }
  }

  lemma {:induction false} ZerosValue(z: string)
    requires forall i :: 0 <= i < |z| ==> z[i] == '0'
    ensures AllDigits(z) && DigitsValue(z) == 0
  {
    if z != [] {
      ZerosValue(z[..|z| - 1]);
    }
  }

  /** Leading zeros do not change the value read. */
  lemma {:induction false} LeadingZeros(z: string, s: string)
    requires forall i :: 0 <= i < |z| ==> z[i] == '0'
    requires AllDigits(s)
    ensures AllDigits(z + s) && DigitsValue(z + s) == DigitsValue(s)
  {
    ZerosValue(z);
    if s == [] {
      assert z + s == z;
    } else {
      var init := s[..|s| - 1];
      LeadingZeros(z, init);
      assert (z + s)[..|z + s| - 1] == z + init;
    }
  }

  /** Zero padding keeps the number: the padded digits read back as n. */
  lemma Pad3Value(n: nat)
    ensures AllDigits(Pad3(n)) && DigitsValue(Pad3(n)) == n
  {
    var d := Decimal(n);
    DecimalRoundTrip(n);
    if |d| < 3 {
      var z := seq(3 - |d|, _ => '0');
      assert Pad3(n) == z + d;
      LeadingZeros(z, d);
    }
  }

  /** Round trip: every generated id parses back to the sequence number it was made from. */
  lemma FormatIdRoundTrip(prefix: string, n: nat)
    ensures ParseId(prefix, FormatId(prefix, n)) == Some(n)
  {
    var id := FormatId(prefix, n);
    assert id[..|prefix|] == prefix;
    assert id[|prefix|..] == Pad3(n);
    Pad3Value(n);
  }

  /** Two sequence numbers give the same id only if they are equal. */
  lemma FormatIdInjective(prefix: string, n: nat, m: nat)
    ensures FormatId(prefix, n) == FormatId(prefix, m) <==> n == m
  {
    FormatIdRoundTrip(prefix, n);
    FormatIdRoundTrip(prefix, m);
  }

  /** Different numbers give different ids. */
  lemma NumbersDiffer(prefix: string, n: nat, m: nat)
    requires n != m
    ensures FormatId(prefix, n) != FormatId(prefix, m)
  {
    FormatIdInjective(prefix, n, m);
  }

  /** Padding gives exactly three digits below 1000, and more from 1000 on (never truncating). */
  lemma Pad3Width(n: nat)
    ensures n < 1000 <==> |Pad3(n)| == 3
  {
    if n >= 10 {
      if n >= 100 {
        assert |Decimal(n / 10)| > 1;
        assert n >= 1000 ==> |Decimal(n / 100)| > 1;
      }
    }
  }

  lemma Pad3Examples()
    ensures Pad3(1) == "001" && Pad3(2) == "002"
    ensures Pad3(42) == "042"
    ensures Pad3(1234) == "1234"
  {
    assert Decimal(1) == "1" && Decimal(2) == "2";
    assert seq(2, _ => '0') == "00";
    assert Decimal(42) == Decimal(4) + "2";
    assert seq(1, _ => '0') == "0";
    assert Decimal(12) == Decimal(1) + "2";
    assert Decimal(123) == Decimal(12) + "3";
    assert Decimal(1234) == Decimal(123) + "4";
  }

  /** Ids below 10 are the prefix, two zeros and the digit, e.g. FormatId("S", 3) == "S003". */
  lemma SmallId(prefix: string, n: nat)
    requires 1 <= n < 10
    ensures FormatId(prefix, n) == prefix + "00" + [DigitChar(n)]
  {
    assert Decimal(n) == [DigitChar(n)];
    assert seq(2, _ => '0') == "00";
  }

  /** A collection whose newest record is first (`unshift`): record k carries number |s| - k. */
  ghost predicate NumberedNewestFirst<T>(s: seq<T>, id: T -> string, prefix: string)
  {
    forall k :: 0 <= k < |s| ==> id(s[k]) == FormatId(prefix, |s| - k)
  }

  /** A collection whose newest record is last (`push`): record k carries number k + 1. */
  ghost predicate NumberedOldestFirst<T>(s: seq<T>, id: T -> string, prefix: string)
  {
    forall k :: 0 <= k < |s| ==> id(s[k]) == FormatId(prefix, k + 1)
  }

  /** In a collection that is only ever prepended to, ids are distinct and the next id is new. */
  lemma NewestFirstDistinct<T>(s: seq<T>, id: T -> string, prefix: string)
    requires NumberedNewestFirst(s, id, prefix)
    ensures forall i, j :: 0 <= i < j < |s| ==> id(s[i]) != id(s[j])
    ensures forall k :: 0 <= k < |s| ==> id(s[k]) != FormatId(prefix, |s| + 1)
  {
    forall i, j | 0 <= i < j < |s| ensures id(s[i]) != id(s[j]) {
      NumbersDiffer(prefix, |s| - i, |s| - j);
    }
    forall k | 0 <= k < |s| ensures id(s[k]) != FormatId(prefix, |s| + 1) {
      NumbersDiffer(prefix, |s| - k, |s| + 1);
    }
  }

  /** In a collection that is only ever appended to, ids are distinct and the next id is new. */
  lemma OldestFirstDistinct<T>(s: seq<T>, id: T -> string, prefix: string)
    requires NumberedOldestFirst(s, id, prefix)
    ensures forall i, j :: 0 <= i < j < |s| ==> id(s[i]) != id(s[j])
    ensures forall k :: 0 <= k < |s| ==> id(s[k]) != FormatId(prefix, |s| + 1)
  {
    forall i, j | 0 <= i < j < |s| ensures id(s[i]) != id(s[j]) {
      NumbersDiffer(prefix, i + 1, j + 1);
    }
    forall k | 0 <= k < |s| ensures id(s[k]) != FormatId(prefix, |s| + 1) {
      NumbersDiffer(prefix, k + 1, |s| + 1);
    }
  }

  /** Prepending the record numbered next keeps a newest-first collection numbered. */
  lemma NewestFirstPrepend<T>(s: seq<T>, id: T -> string, prefix: string, x: T)
    requires NumberedNewestFirst(s, id, prefix)
    requires id(x) == FormatId(prefix, |s| + 1)
    ensures NumberedNewestFirst([x] + s, id, prefix)
  {
    forall k | 0 <= k < |[x] + s| ensures id(([x] + s)[k]) == FormatId(prefix, |[x] + s| - k) {
      if k > 0 {
        assert ([x] + s)[k] == s[k - 1];
      }
    }
  }

  /** Appending the record numbered next keeps an oldest-first collection numbered. */
  lemma OldestFirstAppend<T>(s: seq<T>, id: T -> string, prefix: string, x: T)
    requires NumberedOldestFirst(s, id, prefix)
    requires id(x) == FormatId(prefix, |s| + 1)
    ensures NumberedOldestFirst(s + [x], id, prefix)
  {
    forall k | 0 <= k < |s + [x]| ensures id((s + [x])[k]) == FormatId(prefix, k + 1) {
      if k < |s| {
        assert (s + [x])[k] == s[k];
      }
    }
  }
}
