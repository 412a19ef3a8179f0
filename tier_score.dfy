/** `clean_tier_score` (dashboard_dc.py:64-72): the Tier III percentage plus the
    Tier IV percentage of a free-form tier-distribution cell, each read from the
    first match of `III[:\s]*(\d+)%` and of `IV[:\s]*(\d+)%`. */
module TierScore {
  import opened Wrappers
  import opened Decimal

  /** Python's `\s` on text: the characters `str.isspace()` accepts. */
  predicate IsSpace(c: char)
  {
    || ('\t' <= c <= '\r') || ('\U{1C}' <= c <= ' ') || c == '\U{85}' || c == '\U{A0}'
    || c == '\U{1680}' || ('\U{2000}' <= c <= '\U{200A}') || c == '\U{2028}' || c == '\U{2029}'
    || c == '\U{202F}' || c == '\U{205F}' || c == '\U{3000}'
  }

  /** A character of the separator class `[:\s]`. */
  predicate IsTierSep(c: char) { c == ':' || IsSpace(c) }

  /** First index at or after `i` that is not a separator. */
  function SkipSeps(s: Text, i: nat): (j: nat)
    requires i <= |s|
    ensures i <= j <= |s|
    ensures forall m :: i <= m < j ==> IsTierSep(s[m])
    ensures j < |s| ==> !IsTierSep(s[j])
    decreases |s| - i
  {
    if i < |s| && IsTierSep(s[i]) then SkipSeps(s, i + 1) else i
  }

  /** First index at or after `i` that is not a digit. */
  function DigitsEnd(s: Text, i: nat): (k: nat)
    requires i <= |s|
    ensures i <= k <= |s|
    ensures forall m :: i <= m < k ==> IsDigit(s[m])
    ensures k < |s| ==> !IsDigit(s[k])
    decreases |s| - i
  {
    if i < |s| && IsDigit(s[i]) then DigitsEnd(s, i + 1) else i
  }

  /** `tag` is spelled out in `s` from position `p`. */
  predicate TagAt(s: Text, p: nat, tag: Text)
  {
    p + |tag| <= |s| && s[p..p + |tag|] == tag
  }

  /** The regular expression `tag[:\s]*(\d+)%` matches `s` at `i`, with its
      digit group spanning `s[j..k]`. */
  ghost predicate PatternAt(s: Text, i: nat, tag: Text, j: nat, k: nat)
  {
    && i + |tag| <= j < k < |s|
    && TagAt(s, i, tag)
    && (forall m :: i + |tag| <= m < j ==> IsTierSep(s[m]))
    && (forall m :: j <= m < k ==> IsDigit(s[m]))
    && s[k] == '%'
  }

  /** The pattern tried at position `i`: the tag, the longest run of
      separators, the longest run of digits, then '%'. Backtracking cannot
      find another match, since a digit is not a separator and '%' is not a
      digit. The value is `float(match.group(1))`. */
  function MatchAt(s: Text, i: nat, tag: Text): (r: Option<nat>)
    requires i <= |s|
  {
    if TagAt(s, i, tag) then
      var j := SkipSeps(s, i + |tag|);
      var k := DigitsEnd(s, j);
      if j < k < |s| && s[k] == '%' then Some(DigitsValue(s[j..k])) else None
    else None
  }

  /** MatchAt decides the regular expression at one position, and its value is
      the group's. */
  lemma MatchAtPattern(s: Text, i: nat, tag: Text)
    requires i <= |s|
    ensures MatchAt(s, i, tag).Some? <==> exists j: nat, k: nat :: PatternAt(s, i, tag, j, k)
    ensures forall j: nat, k: nat :: PatternAt(s, i, tag, j, k) ==>
              AllDigits(s[j..k]) && MatchAt(s, i, tag) == Some(DigitsValue(s[j..k]))
  {
    if TagAt(s, i, tag) {
      var j0 := SkipSeps(s, i + |tag|);
      var k0 := DigitsEnd(s, j0);
      if j0 < k0 < |s| && s[k0] == '%' {
        assert PatternAt(s, i, tag, j0, k0);
      }
      forall j: nat, k: nat | PatternAt(s, i, tag, j, k)
        ensures j == j0 && k == k0
      {
        assert IsDigit(s[j]);
        assert j0 < |s| ==> !IsTierSep(s[j0]);
        assert s[k] == '%';
        assert k0 < |s| ==> !IsDigit(s[k0]);
      }
    }
  }

  /** `re.search`: the leftmost position at or after `from` where the pattern
      matches. */
  function Search(s: Text, tag: Text, from: nat): (r: Option<nat>)
    requires from <= |s|
    ensures r.Some? ==> from <= r.value <= |s| && MatchAt(s, r.value, tag).Some?
    ensures r.Some? ==> forall p :: from <= p < r.value ==> MatchAt(s, p, tag).None?
    ensures r.None? ==> forall p :: from <= p <= |s| ==> MatchAt(s, p, tag).None?
    decreases |s| - from
  {
    if MatchAt(s, from, tag).Some? then Some(from)
    else if from == |s| then None
    else Search(s, tag, from + 1)
  }

  /** The percentage after the first match of `tag`, 0 without a match. */
  function TierPercent(s: Text, tag: Text): nat
  {
    match Search(s, tag, 0)
    case Some(p) => MatchAt(s, p, tag).value
    case None => 0
  }

  /** `clean_tier_score(cell)`; a missing cell scores 0. */
  function CleanTierScore(cell: Option<Text>): (score: nat)
    ensures cell.None? ==> score == 0
  {
    match cell
    case None => 0
    case Some(s) => TierPercent(s, "III") + TierPercent(s, "IV")
  }

  /** TierPercent is the group of the leftmost regular-expression match. */
  lemma TierPercentFirstMatch(s: Text, tag: Text, p: nat, j: nat, k: nat)
    requires PatternAt(s, p, tag, j, k)
    requires forall q: nat, j': nat, k': nat :: q < p ==> !PatternAt(s, q, tag, j', k')
    ensures AllDigits(s[j..k]) && TierPercent(s, tag) == DigitsValue(s[j..k])
  {
    MatchAtPattern(s, p, tag);
    var r := Search(s, tag, 0);
    MatchAtPattern(s, r.value, tag);
    assert r.value == p;
  }

  /** Without any match TierPercent is 0. */
  lemma TierPercentNoMatch(s: Text, tag: Text)
    requires forall q: nat, j: nat, k: nat :: q <= |s| ==> !PatternAt(s, q, tag, j, k)
    ensures TierPercent(s, tag) == 0
  {
    var r := Search(s, tag, 0);
    if r.Some? {
      MatchAtPattern(s, r.value, tag);
    }
  }

  /** `tag` occurs somewhere in `s`. */
  ghost predicate Occurs(s: Text, tag: Text)
  {
    exists p: nat :: TagAt(s, p, tag)
  }

  /** A cell that names neither Tier III nor Tier IV scores 0. */
  lemma TierScoreNoMarkers(s: Text)
    requires !Occurs(s, "III") && !Occurs(s, "IV")
    ensures CleanTierScore(Some(s)) == 0
  {
    TierPercentNoMatch(s, "III");
    TierPercentNoMatch(s, "IV");
  }

  /** The tier label of a facility mix with Tier III share `x` and Tier IV
      share `y`, written out as "Tier III: x%, Tier IV: y%". */
  function Label(x: Text, y: Text): Text
  {
    "Tier III: " + x + "%, Tier IV: " + y + "%"
  }

  lemma LabelLayout(x: Text, y: Text)
    ensures var s, n := Label(x, y), |x|;
      && |s| == n + 22 + |y| + 1
      && (forall m :: 0 <= m < 10 ==> s[m] == "Tier III: "[m])
      && (forall m :: 0 <= m < n ==> s[10 + m] == x[m])
      && (forall m :: 0 <= m < 12 ==> s[10 + n + m] == "%, Tier IV: "[m])
      && (forall m :: 0 <= m < |y| ==> s[n + 22 + m] == y[m])
      && s[n + 22 + |y|] == '%'
  {
  }

  /** The Tier III share of the label is read from its first match, at 5. */
  lemma LabelTierIII(a: nat, y: Text)
    ensures TierPercent(Label(ShowNat(a), y), "III") == a
  {
    var x := ShowNat(a);
    var s, n := Label(x, y), |x|;
    LabelLayout(x, y);
    assert s[5..8] == "III";
    assert s[10..10 + n] == x;
    assert PatternAt(s, 5, "III", 10, 10 + n);
    forall q: nat, j: nat, k: nat | q < 5 ensures !PatternAt(s, q, "III", j, k) {
      assert s[q] != 'I';
      if q + 3 <= |s| { assert s[q..q + 3][0] == s[q]; }
    }
    TierPercentFirstMatch(s, "III", 5, 10, 10 + n);
    ShowNatValue(a);
  }

  /** The Tier IV share of the label is read from its first match, after
      the Tier III share. */
  lemma LabelTierIV(x: Text, b: nat)
    requires AllDigits(x)
    ensures TierPercent(Label(x, ShowNat(b)), "IV") == b
  {
    var y := ShowNat(b);
    var s, n := Label(x, y), |x|;
    var q := n + 18;
    LabelLayout(x, y);
    assert s[q..q + 2] == "IV";
    assert s[q + 4..q + 4 + |y|] == y;
    assert PatternAt(s, q, "IV", q + 4, q + 4 + |y|);
    NoVBefore(x, y);
    forall p: nat, j: nat, k: nat | p < q ensures !PatternAt(s, p, "IV", j, k) {
      if p + 2 <= |s| { assert s[p..p + 2][1] == s[p + 1]; }
    }
    TierPercentFirstMatch(s, "IV", q, q + 4, q + 4 + |y|);
    ShowNatValue(b);
  }

  /** No 'V' precedes the "IV" of the label. */
  lemma NoVBefore(x: Text, y: Text)
    requires AllDigits(x)
    ensures forall p :: 0 < p <= |x| + 18 ==> Label(x, y)[p] != 'V'
  {
    var s, n := Label(x, y), |x|;
    LabelLayout(x, y);
    forall p | 0 < p <= n + 18 ensures s[p] != 'V' {
      if p < 10 {
      } else if p < 10 + n {
        assert IsDigit(x[p - 10]);
      } else {
        assert s[p] == "%, Tier IV: "[p - 10 - n];
      }
    }
  }

  /** "Tier III: a%, Tier IV: b%" scores a + b. */
  lemma TierScoreOfLabel(a: nat, b: nat)
    ensures CleanTierScore(Some(Label(ShowNat(a), ShowNat(b)))) == a + b
  {
    LabelTierIII(a, ShowNat(b));
    LabelTierIV(ShowNat(a), b);
  }

  /** The worked example: "Tier III: 60%, Tier IV: 20%" scores 80. */
  lemma TierScoreExample()
    ensures CleanTierScore(Some("Tier III: 60%, Tier IV: 20%")) == 80
  {
    LabelOf60And20();
    TierScoreOfLabel(60, 20);
  }

  lemma LabelOf60And20()
    ensures Label(ShowNat(60), ShowNat(20)) == "Tier III: 60%, Tier IV: 20%"
  {
    ShowNat60And20();
  }

  lemma ShowNat60And20()
    ensures ShowNat(60) == "60" && ShowNat(20) == "20"
  {
    assert ShowNat(6) == "6";
    assert ShowNat(2) == "2";
  }

  /** A cell naming only Tier III, "III:a%", scores a. */
  lemma TierScoreOnlyIII(a: nat)
    ensures CleanTierScore(Some("III:" + ShowNat(a) + "%")) == a
  {
    var x := ShowNat(a);
    var s := "III:" + x + "%";
    var k := 4 + |x|;
    assert s[..3] == "III" && s[3] == ':' && s[k] == '%';
    assert s[4..k] == x;
    forall m | 4 <= m < k ensures IsDigit(s[m]) {
      assert s[m] == x[m - 4];
    }
    assert PatternAt(s, 0, "III", 4, k);
    TierPercentFirstMatch(s, "III", 0, 4, k);
    ShowNatValue(a);
    NoTierIV(x);
    TierPercentNoMatch(s, "IV");
  }

  lemma NoTierIV(x: Text)
    requires AllDigits(x)
    ensures var s := "III:" + x + "%";
            forall q: nat, j: nat, k: nat | q <= |s| :: !PatternAt(s, q, "IV", j, k)
  {
    var s := "III:" + x + "%";
    forall q: nat, j: nat, k: nat | q <= |s| ensures !PatternAt(s, q, "IV", j, k) {
      if TagAt(s, q, "IV") {
        var w := s[q..q + 2];
        assert w[1] == s[q + 1];
      }
    }
  }
}
