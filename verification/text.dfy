/**
 * String helpers the client relies on implicitly: Ruby's decimal rendering
 * of integers inside `#{...}` interpolation, the two-digit padding used for
 * month and day, and a separator-based split/join pair used to state the
 * exact shape of every path, URL and form body the client builds.
 */
module Text {

  // ---------------------------------------------------------------------------
  // Decimal digits
  // ---------------------------------------------------------------------------

  predicate IsDigit(c: char) {
    '0' <= c <= '9'
  }

  predicate AllDigits(s: string) {
    forall i :: 0 <= i < |s| ==> IsDigit(s[i])
  }

  function DigitChar(d: nat): (c: char)
    requires d < 10
    ensures IsDigit(c)
  {
    "0123456789"[d]
  }

  function DigitValue(c: char): nat
    requires IsDigit(c)
  {
    (c as int - '0' as int) as nat
  }

  /** The number a string of decimal digits denotes (most significant first). */
  function DigitsValue(s: string): nat
    requires AllDigits(s)
  {
    if |s| == 0 then 0 else DigitsValue(s[..|s| - 1]) * 10 + DigitValue(s[|s| - 1])
  }

  /** Ruby's `Integer#to_s` for a non-negative integer, as used by `#{n}`. */
  function NatToString(n: nat): (r: string)
    ensures |r| >= 1 && AllDigits(r)
    ensures n < 10 <==> |r| == 1
    ensures 10 <= n < 100 ==> |r| == 2
    ensures n >= 10 ==> r[0] != '0'
    decreases n
  {
    if n < 10 then [DigitChar(n)] else NatToString(n / 10) + [DigitChar(n % 10)]
  }

  lemma {:induction false} DigitValueOfChar(d: nat)
    requires d < 10
    ensures DigitValue(DigitChar(d)) == d
  {
    assert "0123456789"[d] as int == '0' as int + d by {
      var ds := "0123456789";
      assert ds[0] == '0' && ds[1] == '1' && ds[2] == '2' && ds[3] == '3' && ds[4] == '4';
      assert ds[5] == '5' && ds[6] == '6' && ds[7] == '7' && ds[8] == '8' && ds[9] == '9';
    }
  }

  /** Reading back the decimal rendering gives the number: `to_s` loses nothing. */
  lemma {:induction false} NatToStringRoundTrip(n: nat)
    ensures DigitsValue(NatToString(n)) == n
    decreases n
  {
    var r := NatToString(n);
    if n < 10 {
      DigitValueOfChar(n);
    } else {
      NatToStringRoundTrip(n / 10);
      DigitValueOfChar(n % 10);
      assert r[..|r| - 1] == NatToString(n / 10);
      assert r[|r| - 1] == DigitChar(n % 10);
    }
  }

  /**
   * The padding step of `create`: below ten the value is prefixed with "0",
   * otherwise it is printed as it is.
   */
  function Pad2(n: nat): (r: string)
    ensures AllDigits(r)
    ensures n < 100 ==> |r| == 2 && DigitsValue(r) == n
    ensures n < 10 ==> r[0] == '0'
    ensures n >= 10 ==> r == NatToString(n)
  {
    if n < 10 then
      var r := "0" + NatToString(n);
      DigitValueOfChar(n);
      DigitValueOfChar(0);
      assert r[..1] == "0" && r[1] == DigitChar(n);
      assert DigitsValue(r[..1]) == 0 by {
        assert r[..1][..0] == "";
      }
      r
    else
      NatToStringRoundTrip(n);
      NatToString(n)
  }

  // ---------------------------------------------------------------------------
  // Separator-delimited segments
  // ---------------------------------------------------------------------------

  /** Glue the parts together with one separator between neighbours. */
  function Join(parts: seq<string>, sep: char): string
  {
    if |parts| == 0 then ""
    else if |parts| == 1 then parts[0]
    else parts[0] + [sep] + Join(parts[1..], sep)
  }

  predicate NoSep(parts: seq<string>, sep: char) {
    forall i :: 0 <= i < |parts| ==> sep !in parts[i]
  }

  /**
   * Cut a string at every occurrence of the separator, keeping empty pieces,
   * so that a doubled separator shows up as an empty segment.
   */
  function Segments(s: string, sep: char): (r: seq<string>)
    ensures |r| >= 1
    ensures NoSep(r, sep)
    ensures Join(r, sep) == s
    decreases |s|
  {
    if |s| == 0 then [""]
    else if s[0] == sep then
      var rest := Segments(s[1..], sep);
      assert s == [sep] + s[1..];
      [""] + rest
    else
      var rest := Segments(s[1..], sep);
      assert s == [s[0]] + s[1..];
      [[s[0]] + rest[0]] + rest[1..]
  }

  lemma {:induction false} SegmentsOfPlain(p: string, sep: char)
    requires sep !in p
    ensures Segments(p, sep) == [p]
    decreases |p|
  {
    if |p| > 0 {
      SegmentsOfPlain(p[1..], sep);
      assert [p[0]] + p[1..] == p;
    }
  }

  lemma {:induction false} SegmentsOfCons(p: string, sep: char, rest: string)
    requires sep !in p
    ensures Segments(p + [sep] + rest, sep) == [p] + Segments(rest, sep)
    decreases |p|
  {
    var s := p + [sep] + rest;
    if |p| == 0 {
      assert s == [sep] + rest;
      assert s[1..] == rest;
    } else {
      assert s[0] == p[0];
      assert s[1..] == p[1..] + [sep] + rest;
      SegmentsOfCons(p[1..], sep, rest);
      assert [p[0]] + p[1..] == p;
    }
  }

  /** Splitting what `Join` glued gives back the parts: the two are inverse. */
  lemma {:induction false} SegmentsOfJoin(parts: seq<string>, sep: char)
    requires |parts| >= 1
    requires NoSep(parts, sep)
    ensures Segments(Join(parts, sep), sep) == parts
    decreases |parts|
  {
    if |parts| == 1 {
      SegmentsOfPlain(parts[0], sep);
    } else {
      SegmentsOfJoin(parts[1..], sep);
      SegmentsOfCons(parts[0], sep, Join(parts[1..], sep));
      assert [parts[0]] + parts[1..] == parts;
    }
  }

  lemma {:induction false} JoinSnoc(parts: seq<string>, last: string, sep: char)
    requires |parts| >= 1
    ensures Join(parts + [last], sep) == Join(parts, sep) + [sep] + last
    decreases |parts|
  {
    if |parts| == 1 {
      assert parts + [last] == [parts[0], last];
      assert [last][1..] == [];
    } else {
      assert (parts + [last])[1..] == parts[1..] + [last];
      JoinSnoc(parts[1..], last, sep);
    }
  }

  /** Re-bracketing a separator followed by a key and its value. */
  lemma Glue(acc: string, sep: char, key: string, x: string)
    ensures acc + [sep] + (key + x) == acc + ([sep] + key) + x
  {
  }

  /** Joining two non-empty lists puts one separator between their joins. */
  lemma {:induction false} JoinAppend(a: seq<string>, b: seq<string>, sep: char)
    requires |a| >= 1 && |b| >= 1
    ensures Join(a + b, sep) == Join(a, sep) + [sep] + Join(b, sep)
    decreases |a|
  {
    if |a| == 1 {
      assert (a + b)[1..] == b;
    } else {
      assert (a + b)[1..] == a[1..] + b;
      JoinAppend(a[1..], b, sep);
    }
  }
}
