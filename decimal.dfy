/** The token-to-number step of the cleaning engine: Python's `float()` applied
    to a run of ASCII digits and dots (dashboard_dc.py lines 59 and 61), and
    `float()` of a digit group (lines 69 and 71). */
module Decimal {
  import opened Wrappers

  type Text = seq<char>

  predicate IsDigit(c: char) { '0' <= c <= '9' }

  /** A character the run pattern `[\d\.]+` accepts. */
  predicate IsRunChar(c: char) { IsDigit(c) || c == '.' }

  predicate AllDigits(s: Text) { forall i :: 0 <= i < |s| ==> IsDigit(s[i]) }

  predicate AllRunChars(s: Text) { forall i :: 0 <= i < |s| ==> IsRunChar(s[i]) }

  function DigitValue(c: char): (d: nat)
    requires IsDigit(c)
    ensures d < 10
  {
    c as int - '0' as int
  }

  function DigitChar(d: nat): (c: char)
    requires d < 10
    ensures IsDigit(c) && DigitValue(c) == d
  {
    ('0' as int + d) as char
  }

  /** The integer a digit string denotes (leading zeros allowed). */
  function DigitsValue(s: Text): nat
    requires AllDigits(s)
    decreases |s|
  {
    if s == [] then 0 else 10 * DigitsValue(s[..|s| - 1]) + DigitValue(s[|s| - 1])
  }

  function Pow10(n: nat): (p: nat)
    ensures p >= 1
  {
    if n == 0 then 1 else 10 * Pow10(n - 1)
  }

  /** Index of the first dot, `|s|` when there is none. */
  function FirstDot(s: Text): (k: nat)
    ensures k <= |s|
    ensures forall i :: 0 <= i < k ==> s[i] != '.'
    ensures k < |s| ==> s[k] == '.'
  {
    if s == [] then 0 else if s[0] == '.' then 0 else 1 + FirstDot(s[1..])
  }

  /** Python's `float(t)` for a token of digits and dots: it accepts one
      optional decimal point with at least one digit on either side of it
      ("7", "7.", ".5", "7.25") and raises ValueError otherwise (".", "",
      "1.2.3"). None stands for the exception. */
  function ParseDecimal(t: Text): (r: Option<real>)
    requires AllRunChars(t)
    ensures r.Some? ==> r.value >= 0.0
  {
    var k := FirstDot(t);
    if k == |t| then
      if t == [] then None else Some(DigitsValue(t) as real)
    else
      ParsePointed(t[..k], t[k + 1..])
  }

  /** `float(whole + "." + rest)` where `whole` has no dot. */
  function ParsePointed(whole: Text, rest: Text): (r: Option<real>)
    requires AllDigits(whole) && AllRunChars(rest)
    ensures r.Some? ==> r.value >= 0.0
  {
    if FirstDot(rest) < |rest| || (whole == [] && rest == []) then None
    else Some(FixedValue(whole, rest))
  }

  /** The value of the decimal numeral `whole.frac`. */
  function FixedValue(whole: Text, frac: Text): (v: real)
    requires AllDigits(whole) && AllDigits(frac)
    ensures v >= 0.0
  {
    DigitsValue(whole) as real + DigitsValue(frac) as real / Pow10(|frac|) as real
  }

  /** `float()` accepts a run exactly when it holds at most one dot and at
      least one digit. */
  lemma ParseDecimalAccepts(t: Text)
    requires AllRunChars(t)
    ensures ParseDecimal(t).Some? <==> multiset(t)['.'] <= 1 && multiset(t)['.'] < |t|
  {
    var k := FirstDot(t);
    DotCount(t, k);
    if k < |t| {
      var frac := t[k + 1..];
      assert |t| == k + 1 + |frac|;
      assert multiset(frac)['.'] <= |frac| by {
        assert |multiset(frac)| == |frac|;
      }
      if multiset(frac)['.'] == 0 {
        assert '.' !in frac;
      } else {
        assert '.' in frac;
        assert FirstDot(frac) < |frac| by {
          var i :| 0 <= i < |frac| && frac[i] == '.';
          assert FirstDot(frac) <= i;
        }
      }
    }
  }

  /** How the dots of `t` split around its first dot `k`. */
  lemma DotCount(t: Text, k: nat)
    requires k == FirstDot(t)
    ensures k == |t| ==> multiset(t)['.'] == 0
    ensures k < |t| ==> multiset(t)['.'] == 1 + multiset(t[k + 1..])['.']
  {
    assert t == t[..k] + t[k..];
    assert multiset(t[..k])['.'] == 0 by {
      assert '.' !in t[..k];
    }
    if k < |t| {
      assert t[k..] == [t[k]] + t[k + 1..];
    }
  }

  /** Python's `str(n)` for a natural number. */
  function ShowNat(n: nat): (s: Text)
    ensures |s| > 0 && AllDigits(s)
  {
    if n < 10 then [DigitChar(n)] else ShowNat(n / 10) + [DigitChar(n % 10)]
  }

  lemma {:induction false} ShowNatValue(n: nat)
    ensures DigitsValue(ShowNat(n)) == n
  {
    if n >= 10 {
      var s := ShowNat(n);
      assert s[..|s| - 1] == ShowNat(n / 10);
      ShowNatValue(n / 10);
    }
  }

  /** Round trip: `float(str(n)) == n`. */
  lemma ParseShowNat(n: nat)
    ensures ParseDecimal(ShowNat(n)) == Some(n as real)
  {
    NoDotInDigits(ShowNat(n));
    ShowNatValue(n);
  }

  /** Leading zeros do not change the value of a digit string. */
  lemma {:induction false} LeadingZeros(z: nat, s: Text)
    requires AllDigits(s)
    ensures AllDigits(seq(z, _ => '0') + s)
    ensures DigitsValue(seq(z, _ => '0') + s) == DigitsValue(s)
    decreases |s|
  {
    var zs := seq(z, _ => '0');
    if s == [] {
      assert zs + s == zs;
      AllZeros(z);
    } else {
      var t := zs + s;
      assert t[..|t| - 1] == zs + s[..|s| - 1];
      LeadingZeros(z, s[..|s| - 1]);
    }
  }

  lemma {:induction false} AllZeros(z: nat)
    ensures AllDigits(seq(z, _ => '0'))
    ensures DigitsValue(seq(z, _ => '0')) == 0
  {
    if z > 0 {
      assert seq(z, _ => '0')[..z - 1] == seq(z - 1, _ => '0');
      AllZeros(z - 1);
    }
  }

  /** `str(n)` has at most k digits exactly when n < 10^k. */
  lemma {:induction false} ShowNatLength(n: nat, k: nat)
    requires n < Pow10(k)
    ensures |ShowNat(n)| <= k || (n == 0 && k == 0)
  {
    if n >= 10 {
      assert Pow10(0) == 1 && Pow10(1) == 10;
      assert k >= 2;
      ShowNatLength(n / 10, k - 1);
    } else if k == 0 {
      assert n == 0;
    }
  }

  /** `frac` written with exactly `places` digits, zeros in front. */
  function Padded(frac: nat, places: nat): (p: Text)
    requires frac < Pow10(places) && 0 < places
    ensures |p| == places && AllDigits(p) && DigitsValue(p) == frac
  {
    ShowNatLength(frac, places);
    var f := ShowNat(frac);
    LeadingZeros(places - |f|, f);
    ShowNatValue(frac);
    seq(places - |f|, _ => '0') + f
  }

  /** The fixed-point text of `whole + frac / 10^places`: `str(whole)`, a dot
      and `frac` zero-padded to `places` digits. */
  function ShowFixed(whole: nat, frac: nat, places: nat): (s: Text)
    requires 0 < places && frac < Pow10(places)
    ensures AllRunChars(s)
  {
    var w, p := ShowNat(whole), Padded(frac, places);
    assert forall i :: 0 <= i < |w| ==> (w + ['.'] + p)[i] == w[i];
    assert forall i :: |w| < i < |w| + 1 + |p| ==> (w + ['.'] + p)[i] == p[i - |w| - 1];
    w + ['.'] + p
  }

  lemma NoDotInDigits(s: Text)
    requires AllDigits(s)
    ensures FirstDot(s) == |s|
  {
  }

  /** `float(w + "." + p)` for digit strings w and p, not both empty. */
  lemma ParseWithPoint(w: Text, p: Text)
    requires AllDigits(w) && AllDigits(p) && (w != [] || p != [])
    ensures AllRunChars(w + ['.'] + p)
    ensures ParseDecimal(w + ['.'] + p) == Some(FixedValue(w, p))
  {
    var s := w + ['.'] + p;
    assert AllRunChars(s) by {
      forall i | 0 <= i < |s| ensures IsRunChar(s[i]) {
        if i < |w| { assert s[i] == w[i]; }
        else if i > |w| { assert s[i] == p[i - |w| - 1]; }
      }
    }
    NoDotInDigits(w);
    NoDotInDigits(p);
    var k := FirstDot(s);
    assert s[|w|] == '.';
    assert s[..|w|] == w;
    assert k == |w|;
    assert s[..k] == w;
    assert s[k + 1..] == p;
  }

  /** Round trip for decimals: `float("12.05") == 12 + 5 / 100`. */
  lemma ParseShowFixed(whole: nat, frac: nat, places: nat)
    requires 0 < places && frac < Pow10(places)
    ensures ParseDecimal(ShowFixed(whole, frac, places))
            == Some(whole as real + frac as real / Pow10(places) as real)
  {
    var w, p := ShowNat(whole), Padded(frac, places);
    ShowNatValue(whole);
    ParseWithPoint(w, p);
    FixedValueOf(w, p, whole, frac);
  }

  lemma FixedValueOf(w: Text, p: Text, whole: nat, frac: nat)
    requires AllDigits(w) && AllDigits(p)
    requires DigitsValue(w) == whole && DigitsValue(p) == frac
    ensures FixedValue(w, p) == whole as real + frac as real / Pow10(|p|) as real
  {
  }
}
