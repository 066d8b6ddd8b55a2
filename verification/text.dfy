/**
 String helpers shared by the home screen and the synthesis handler:
 the white-space trim that guards conversion, and the decimal rendering of
 a millisecond timestamp that goes into every artifact key.
 */
module Text {

  /** The characters that trim removes. A small subset of ECMAScript's
      white space and line terminators: space, tab, line feed, carriage
      return, vertical tab, form feed, no-break space and the byte order mark. */
  predicate IsSpace(c: char) {
    c == ' ' || c == '\t' || c == '\n' || c == '\r' ||
    c == '\U{B}' || c == '\U{C}' || c == '\U{A0}' || c == '\U{FEFF}'
  }

  predicate AllSpace(s: string) {
    forall i :: 0 <= i < |s| ==> IsSpace(s[i])
  }

  /** Drops leading white space: what is removed is white space, and what is
      left is a suffix of the input that does not start with white space. */
  function TrimStart(s: string): (r: string)
    ensures |r| <= |s| && r == s[|s| - |r|..]
    ensures AllSpace(s[..|s| - |r|])
    ensures r == [] || !IsSpace(r[0])
    decreases |s|
  {
    if |s| > 0 && IsSpace(s[0]) then
      var r := TrimStart(s[1..]);
      var cut := s[1..][..|s| - 1 - |r|];
      assert s[..|s| - |r|] == [s[0]] + cut;
      AllSpaceConcat([s[0]], cut);
      r
    else
      s
  }

  /** Drops trailing white space: what is removed is white space, and what is
      left is a prefix of the input that does not end with white space. */
  function TrimEnd(s: string): (r: string)
    ensures |r| <= |s| && r == s[..|r|]
    ensures AllSpace(s[|r|..])
    ensures r == [] || !IsSpace(r[|r| - 1])
    decreases |s|
  {
    if |s| > 0 && IsSpace(s[|s| - 1]) then
      var r := TrimEnd(s[..|s| - 1]);
      var cut := s[..|s| - 1][|r|..];
      assert s[|r|..] == cut + [s[|s| - 1]];
      AllSpaceConcat(cut, [s[|s| - 1]]);
      r
    else
      s
  }

  lemma AllSpaceConcat(x: string, y: string)
    ensures AllSpace(x + y) <==> AllSpace(x) && AllSpace(y)
  {
    if AllSpace(x) && AllSpace(y) {
      forall k | 0 <= k < |x + y|
        ensures IsSpace((x + y)[k])
      {
        if k >= |x| {
          assert (x + y)[k] == y[k - |x|];
        }
      }
    }
    if AllSpace(x + y) {
      forall k | 0 <= k < |x|
        ensures IsSpace(x[k])
      {
        assert (x + y)[k] == x[k];
      }
      forall k | 0 <= k < |y|
        ensures IsSpace(y[k])
      {
        assert (x + y)[|x| + k] == y[k];
      }
    }
  }

  /** `r` is `s` with white space cut off before `i` and from `j` on. */
  predicate CutAt(s: string, r: string, i: nat, j: nat) {
    i <= j <= |s| && r == s[i..j] && AllSpace(s[..i]) && AllSpace(s[j..])
  }

  /** `String.prototype.trim`: white space removed from both ends. */
  function Trim(s: string): (r: string)
    ensures exists i, j :: CutAt(s, r, i, j)
    ensures r == [] || (!IsSpace(r[0]) && !IsSpace(r[|r| - 1]))
  {
    TrimCuts(s);
    TrimEnd(TrimStart(s))
  }

  /** Where Trim cuts: after the leading and before the trailing white space. */
  lemma TrimCuts(s: string)
    ensures exists i, j :: CutAt(s, TrimEnd(TrimStart(s)), i, j)
  {
    var a := TrimStart(s);
    var r := TrimEnd(a);
    var i := |s| - |a|;
    var j := i + |r|;
    assert r == s[i..j] by {
      assert a == s[i..];
      assert r == a[..|r|];
    }
    assert AllSpace(s[j..]) by {
      assert s[j..] == a[|r|..];
    }
    assert CutAt(s, r, i, j);
  }

  /** JavaScript treats the trimmed text as false exactly when it is empty,
      which happens exactly when every character is white space. */
  lemma TrimEmptyIffAllSpace(s: string)
    ensures Trim(s) == [] <==> AllSpace(s)
  {
    var a := TrimStart(s);
    var r := TrimEnd(a);
    assert Trim(s) == r;
    if AllSpace(s) {
      TrimStartOfAllSpace(s);
    }
    if r == [] {
      var i := |s| - |a|;
      assert a[|r|..] == a;
      assert s == s[..i] + a;
      AllSpaceConcat(s[..i], a);
    }
  }

  lemma {:induction false} TrimStartOfAllSpace(s: string)
    requires AllSpace(s)
    ensures TrimStart(s) == []
    decreases |s|
  {
    if s != [] {
      assert AllSpace(s[1..]) by {
        assert forall k :: 0 <= k < |s| - 1 ==> s[1..][k] == s[k + 1];
      }
      TrimStartOfAllSpace(s[1..]);
    }
  }

  predicate IsDigit(c: char) {
    '0' <= c <= '9'
  }

  predicate AllDigits(s: string) {
    forall i :: 0 <= i < |s| ==> IsDigit(s[i])
  }

  function DigitChar(d: nat): (c: char)
    requires d < 10
    ensures IsDigit(c)
  {
    "0123456789"[d]
  }

  function DigitValue(c: char): (d: nat)
    requires IsDigit(c)
    ensures d < 10
  {
    (c as int - '0' as int) as nat
  }

  /** The decimal rendering a template literal gives a non-negative integer:
      at least one digit and no leading zero. */
  function Decimal(n: nat): (r: string)
    ensures |r| >= 1 && AllDigits(r)
    ensures |r| > 1 ==> r[0] != '0'
  {
    if n < 10 then [DigitChar(n)] else Decimal(n / 10) + [DigitChar(n % 10)]
  }

  /** Reads a string of digits back as a number. */
  function ParseDecimal(s: string): nat
    requires AllDigits(s)
  {
    if s == [] then 0 else 10 * ParseDecimal(s[..|s| - 1]) + DigitValue(s[|s| - 1])
  }

  /** Reading the rendering back gives the number that was rendered. */
  lemma {:induction false} DecimalRoundTrip(n: nat)
    ensures ParseDecimal(Decimal(n)) == n
  {
    var r := Decimal(n);
    if n < 10 {
      assert r[..|r| - 1] == [];
    } else {
      DecimalRoundTrip(n / 10);
      assert r[..|r| - 1] == Decimal(n / 10);
    }
  }

  /** Distinct numbers have distinct renderings. */
  lemma DecimalInjective(m: nat, n: nat)
    ensures Decimal(m) == Decimal(n) ==> m == n
  {
    DecimalRoundTrip(m);
    DecimalRoundTrip(n);
  }
}
