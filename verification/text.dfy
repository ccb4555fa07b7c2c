/**
 * The two string renderings the CORS filter puts into header values:
 * a comma-separated list with no spaces (for the method, header and
 * expose lists) and the decimal form of an integer (for the max-age).
 * Each comes with its inverse and a round-trip proof.
 */
module Text {

  import opened Wrappers

  const Comma: char := ','

  /** Joins `parts` with a comma and no spaces; the empty list joins to "". */
  function Join(parts: seq<string>): (r: string)
    ensures |parts| == 1 ==> r == parts[0]
    ensures |parts| > 1 ==> |r| > |parts[0]| && r[..|parts[0]|] == parts[0] && r[|parts[0]|] == Comma
  {
    if |parts| == 0 then ""
    else if |parts| == 1 then parts[0]
    else parts[0] + [Comma] + Join(parts[1..])
  }

  /** Number of commas in `s`. */
  function CommaCount(s: string): nat
  {
    if s == [] then 0 else (if s[0] == Comma then 1 else 0) + CommaCount(s[1..])
  }

  /** Splits `s` at every comma: the inverse of `Join`. */
  function Split(s: string): (r: seq<string>)
    ensures |r| == CommaCount(s) + 1
    ensures forall i :: 0 <= i < |r| ==> Comma !in r[i]
  {
    if s == [] then [""]
    else if s[0] == Comma then [""] + Split(s[1..])
    else
      var rest := Split(s[1..]);
      [[s[0]] + rest[0]] + rest[1..]
  }

  /** A string without commas is a single list element. */
  lemma {:induction false} SplitNoComma(a: string)
    requires Comma !in a
    ensures Split(a) == [a]
  {
    if a != [] {
      assert Comma !in a[1..] by {
        forall i | 0 <= i < |a[1..]| ensures a[1..][i] != Comma { assert a[1..][i] == a[i + 1]; }
      }
      SplitNoComma(a[1..]);
      assert [a[0]] + a[1..] == a;
    }
  }

  /** Splitting `a,b` yields `a` followed by the split of `b`, when `a` has no comma. */
  lemma {:induction false} SplitHead(a: string, b: string)
    requires Comma !in a
    ensures Split(a + [Comma] + b) == [a] + Split(b)
  {
    if a == [] {
      assert a + [Comma] + b == [Comma] + b;
      assert ([Comma] + b)[1..] == b;
    } else {
      var s := a + [Comma] + b;
      assert s[0] == a[0];
      assert s[1..] == a[1..] + [Comma] + b;
      assert Comma !in a[1..] by {
        forall i | 0 <= i < |a[1..]| ensures a[1..][i] != Comma { assert a[1..][i] == a[i + 1]; }
      }
      SplitHead(a[1..], b);
      assert [a[0]] + a[1..] == a;
    }
  }

  /** Join then Split gives back the list, as long as no element contains a comma. */
  lemma {:induction false} SplitJoin(parts: seq<string>)
    requires |parts| > 0
    requires forall i :: 0 <= i < |parts| ==> Comma !in parts[i]
    ensures Split(Join(parts)) == parts
  {
    if |parts| == 1 {
      SplitNoComma(parts[0]);
    } else {
      SplitJoin(parts[1..]);
      SplitHead(parts[0], Join(parts[1..]));
      assert [parts[0]] + parts[1..] == parts;
    }
  }

  /** Split then Join gives back every string. */
  lemma {:induction false} JoinSplit(s: string)
    ensures Join(Split(s)) == s
  {
    if s == [] {
    } else if s[0] == Comma {
      JoinSplit(s[1..]);
      var rest := Split(s[1..]);
      assert ([""] + rest)[1..] == rest;
      assert [Comma] + s[1..] == s;
    } else {
      JoinSplit(s[1..]);
      var rest := Split(s[1..]);
      var r := [[s[0]] + rest[0]] + rest[1..];
      assert r[1..] == rest[1..];
      if |rest| == 1 {
        assert [s[0]] + s[1..] == s;
      } else {
        assert Join(rest) == rest[0] + [Comma] + Join(rest[1..]);
        assert Join(r) == [s[0]] + rest[0] + [Comma] + Join(rest[1..]);
        assert [s[0]] + s[1..] == s;
      }
    }
  }

  // ---------------------------------------------------------------------------
  // Decimal rendering, as Go's strconv.Itoa does it

  predicate IsDigit(c: char)
  {
    '0' <= c <= '9'
  }

  function DigitChar(d: nat): (c: char)
    requires d < 10
    ensures IsDigit(c) && c as int - '0' as int == d
  {
    ('0' as int + d) as char
  }

  function DigitValue(c: char): (d: nat)
    requires IsDigit(c)
    ensures d < 10 && DigitChar(d) == c
  {
    c as int - '0' as int
  }

  /** The decimal digits of `n`, most significant first, without leading zeros. */
  function NatDigits(n: nat): (r: string)
    ensures |r| > 0
    ensures forall i :: 0 <= i < |r| ==> IsDigit(r[i])
    ensures r[0] == '0' <==> n == 0
    ensures n == 0 ==> r == "0"
  {
    if n < 10 then [DigitChar(n)] else NatDigits(n / 10) + [DigitChar(n % 10)]
  }

  /** The decimal rendering of `n`: a minus sign for negative numbers, then the digits. */
  function Decimal(n: int): (r: string)
    ensures |r| > 0
    ensures n >= 0 ==> (forall i :: 0 <= i < |r| ==> IsDigit(r[i])) && (r[0] == '0' ==> r == "0")
    ensures n < 0 ==> r[0] == '-' && |r| > 1 && r[1] != '0' && forall i :: 1 <= i < |r| ==> IsDigit(r[i])
  {
    if n < 0 then "-" + NatDigits(-n) else NatDigits(n)
  }

  /** The value of a string of decimal digits. */
  function ParseDigits(s: string): nat
    requires forall i :: 0 <= i < |s| ==> IsDigit(s[i])
  {
    if s == [] then 0 else 10 * ParseDigits(s[..|s| - 1]) + DigitValue(s[|s| - 1])
  }

  /** The inverse of `Decimal` (as Go's strconv.Atoi is on its output); None for other strings. */
  function ParseDecimal(s: string): (r: Option<int>)
    ensures r.Some? ==> |s| > 0
  {
    if |s| > 0 && forall i :: 0 <= i < |s| ==> IsDigit(s[i]) then Some(ParseDigits(s))
    else if |s| > 1 && s[0] == '-' && forall i :: 1 <= i < |s| ==> IsDigit(s[i]) then
      var magnitude: int := ParseDigits(s[1..]); Some(-magnitude)
    else None
  }

  lemma {:induction false} ParseNatDigits(n: nat)
    ensures ParseDigits(NatDigits(n)) == n
  {
    if n >= 10 {
      ParseNatDigits(n / 10);
      var r := NatDigits(n);
      assert r[..|r| - 1] == NatDigits(n / 10);
    }
  }

  /** Joining an element in front of a non-empty list puts one comma between them. */
  lemma JoinCons(head: string, tail: seq<string>, joined: string)
    requires tail != [] && Join(tail) == joined
    ensures Join([head] + tail) == head + [Comma] + joined
  {
  }

  /** Parsing the decimal rendering of any integer gives that integer back. */
  lemma {:induction false} ParseDecimalOfDecimal(n: int)
    ensures ParseDecimal(Decimal(n)) == Some(n)
  {
    var r := Decimal(n);
    if n < 0 {
      var digits := NatDigits(-n);
      assert r == "-" + digits;
      assert r[1..] == digits;
      assert !IsDigit(r[0]);
      assert forall i :: 1 <= i < |r| ==> IsDigit(r[i]) by {
        forall i | 1 <= i < |r| ensures IsDigit(r[i]) { assert r[i] == digits[i - 1]; }
      }
      ParseNatDigits(-n);
      assert ParseDigits(r[1..]) == -n;
    } else {
      ParseNatDigits(n);
    }
  }

  /** Distinct integers have distinct renderings. */
  lemma DecimalInjective(m: int, n: int)
    requires Decimal(m) == Decimal(n)
    ensures m == n
  {
    ParseDecimalOfDecimal(m);
    ParseDecimalOfDecimal(n);
  }
}
