/** `clean_numeric` (dashboard_dc.py:53-62): one spreadsheet text cell to a
    number. Commas are dropped, the cell is cut into maximal runs of digits
    and dots (the pattern `[\d\.]+`), and either the mean of the first two
    runs (when the cell holds a '-') or the first run is the value. */
module NumericCells {
  import opened Wrappers
  import opened Decimal

  /** The cell text with every ',' removed (`value.replace(',', '')`). */
  function StripCommas(s: Text): (r: Text)
    ensures ',' !in r
    ensures |r| <= |s|
  {
    if s == [] then []
    else (if s[0] == ',' then [] else [s[0]]) + StripCommas(s[1..])
  }

  lemma {:induction false} StripCommasAppend(a: Text, b: Text)
    ensures StripCommas(a + b) == StripCommas(a) + StripCommas(b)
  {
    if a == [] {
      assert a + b == b;
    } else {
      var ab := a + b;
      var head := if a[0] == ',' then [] else [a[0]];
      assert ab[0] == a[0] && ab[1..] == a[1..] + b;
      assert StripCommas(ab) == head + StripCommas(a[1..] + b);
      StripCommasAppend(a[1..], b);
      assert StripCommas(a) == head + StripCommas(a[1..]);
    }
  }

  /** Removing the one comma of a text joins its two sides. */
  lemma {:induction false} StripOneComma(x: Text, y: Text)
    requires ',' !in x && ',' !in y
    ensures StripCommas(x + [','] + y) == x + y
  {
    var s := x + [','] + y;
    if x == [] {
      assert s[0] == ',' && s[1..] == y;
      StripCommasNoComma(y);
    } else {
      assert s[0] == x[0] && s[1..] == x[1..] + [','] + y;
      StripOneComma(x[1..], y);
      assert x + y == [x[0]] + (x[1..] + y);
    }
  }

  /** A text without commas is left as it is. */
  lemma {:induction false} StripCommasNoComma(s: Text)
    requires ',' !in s
    ensures StripCommas(s) == s
  {
    if s != [] {
      assert s == [s[0]] + s[1..];
      StripCommasNoComma(s[1..]);
    }
  }

  /** Length of the longest prefix of `s` made of run characters. */
  function LeadingRun(s: Text): (k: nat)
    ensures k <= |s|
    ensures forall i :: 0 <= i < k ==> IsRunChar(s[i])
    ensures k < |s| ==> !IsRunChar(s[k])
  {
    if s == [] || !IsRunChar(s[0]) then 0 else 1 + LeadingRun(s[1..])
  }

  /** `re.findall(r"[\d\.]+", s)`: the maximal runs of digits and dots, left
      to right. */
  function Runs(s: Text): (r: seq<Text>)
    ensures forall i :: 0 <= i < |r| ==> |r[i]| > 0 && AllRunChars(r[i])
    decreases |s|
  {
    if s == [] then []
    else if !IsRunChar(s[0]) then Runs(s[1..])
    else
      var k := LeadingRun(s);
      assert AllRunChars(s[..k]);
      [s[..k]] + Runs(s[k..])
  }

  /** A text that is one run yields exactly that run. */
  lemma {:induction false} RunsOfRun(t: Text)
    requires |t| > 0 && AllRunChars(t)
    ensures Runs(t) == [t]
  {
    LeadingRunWhole(t);
    assert t[..|t|] == t && t[|t|..] == [];
  }

  lemma {:induction false} LeadingRunWhole(t: Text)
    requires AllRunChars(t)
    ensures LeadingRun(t) == |t|
  {
    if t != [] {
      LeadingRunWhole(t[1..]);
    }
  }

  /** Maximality: a character outside the pattern separates the runs on its
      left from those on its right. */
  lemma {:induction false} RunsSplit(a: Text, c: char, b: Text)
    requires !IsRunChar(c)
    ensures Runs(a + [c] + b) == Runs(a) + Runs(b)
    decreases |a|
  {
    var s := a + [c] + b;
    if a == [] {
      assert s[1..] == b;
    } else if !IsRunChar(a[0]) {
      assert s[1..] == a[1..] + [c] + b;
      RunsSplit(a[1..], c, b);
    } else {
      var k := LeadingRun(s);
      LeadingRunStops(a, c, b);
      assert s[..k] == a[..k];
      assert s[k..] == a[k..] + [c] + b;
      RunsSplit(a[k..], c, b);
    }
  }

  lemma {:induction false} LeadingRunStops(a: Text, c: char, b: Text)
    requires !IsRunChar(c)
    ensures LeadingRun(a + [c] + b) == LeadingRun(a)
    decreases |a|
  {
    var s := a + [c] + b;
    if a == [] {
    } else if IsRunChar(a[0]) {
      assert s[1..] == a[1..] + [c] + b;
      LeadingRunStops(a[1..], c, b);
    }
  }

  /** A text has no run exactly when it holds no digit and no dot. */
  lemma {:induction false} RunsEmpty(s: Text)
    ensures Runs(s) == [] <==> forall i :: 0 <= i < |s| ==> !IsRunChar(s[i])
    decreases |s|
  {
    if s != [] {
      if !IsRunChar(s[0]) {
        RunsEmpty(s[1..]);
        assert forall i :: 1 <= i < |s| ==> s[i] == s[1..][i - 1];
      }
    }
  }

  /** `clean_numeric(cell)`. None for the cell is pandas' missing value; a
      None result is the ValueError `float()` raises on a malformed run. */
  function CleanNumeric(cell: Option<Text>): (r: Option<real>)
    ensures cell.None? ==> r == Some(0.0)
    ensures r.Some? ==> r.value >= 0.0
  {
    match cell
    case None => Some(0.0)
    case Some(text) => CleanText(StripCommas(text))
  }

  /** The scan of a comma-free cell text. */
  function CleanText(s: Text): (r: Option<real>)
    ensures r.Some? ==> r.value >= 0.0
  {
    var parts := Runs(s);
    if '-' in s && |parts| >= 2 then Mean(ParseDecimal(parts[0]), ParseDecimal(parts[1]))
    else if |parts| > 0 then ParseDecimal(parts[0])
    else Some(0.0)
  }

  /** `(float(a) + float(b)) / 2`, failing when either conversion fails. */
  function Mean(x: Option<real>, y: Option<real>): (r: Option<real>)
    ensures r.Some? <==> x.Some? && y.Some?
    ensures r.Some? ==> r.value * 2.0 == x.value + y.value
  {
    if x.Some? && y.Some? then Some((x.value + y.value) / 2.0) else None
  }

  /** A cell with no digit and no dot is 0. */
  lemma {:induction false} CleanNumericNoRun(text: Text)
    requires forall i :: 0 <= i < |text| ==> !IsRunChar(text[i])
    ensures CleanNumeric(Some(text)) == Some(0.0)
  {
    StripCommasKeepsRunFree(text);
    RunsEmpty(StripCommas(text));
  }

  lemma {:induction false} StripCommasKeepsRunFree(s: Text)
    requires forall i :: 0 <= i < |s| ==> !IsRunChar(s[i])
    ensures forall i :: 0 <= i < |StripCommas(s)| ==> !IsRunChar(StripCommas(s)[i])
  {
    if s != [] {
      StripCommasKeepsRunFree(s[1..]);
    }
  }

  /** No character of `s` is a digit or a dot. */
  predicate RunFree(s: Text)
  {
    forall i :: 0 <= i < |s| ==> !IsRunChar(s[i])
  }

  /** Text without run characters in front adds no run. */
  lemma {:induction false} RunsPrefix(p: Text, t: Text)
    requires RunFree(p)
    ensures Runs(p + t) == Runs(t)
  {
    var s := p + t;
    if p == [] {
      assert s == t;
    } else {
      assert s[0] == p[0] && s[1..] == p[1..] + t;
      RunsPrefix(p[1..], t);
    }
  }

  /** A run followed by a text that does not continue it is the first run. */
  lemma {:induction false} RunsLead(x: Text, u: Text)
    requires |x| > 0 && AllRunChars(x)
    requires u == [] || !IsRunChar(u[0])
    ensures Runs(x + u) == [x] + (if u == [] then [] else Runs(u[1..]))
  {
    RunsOfRun(x);
    if u == [] {
      assert x + u == x;
    } else {
      assert x + u == x + [u[0]] + u[1..];
      RunsSplit(x, u[0], u[1..]);
    }
  }

  /** A number with text around it: `clean_numeric("~7.5 MW") == 7.5`. The
      cell is a prefix without digits or dots, one run, and a unit that does
      not continue the run; neither prefix nor unit holds a '-' or a ','. */
  lemma {:induction false} CleanNumericLeading(p: Text, x: Text, unit: Text)
    requires RunFree(p) && '-' !in p && ',' !in p
    requires |x| > 0 && AllRunChars(x)
    requires unit == [] || !IsRunChar(unit[0])
    requires '-' !in unit && ',' !in unit
    ensures CleanNumeric(Some(p + x + unit)) == ParseDecimal(x)
  {
    var s := p + x + unit;
    assert ',' !in s && '-' !in s by {
      assert ',' !in x && '-' !in x;
    }
    assert Runs(s) == [x] + (if unit == [] then [] else Runs(unit[1..])) by {
      assert s == p + (x + unit);
      RunsPrefix(p, x + unit);
      RunsLead(x, unit);
    }
    StripCommasNoComma(s);
  }

  /** A cell with one run takes that run, wherever a '-' stands:
      `clean_numeric("-2.5%") == 2.5`, `clean_numeric("approx - 5") == 5`.
      The prefix and the rest hold no digit, dot or ','. */
  lemma {:induction false} CleanNumericOneRun(p: Text, x: Text, u: Text)
    requires RunFree(p) && ',' !in p
    requires |x| > 0 && AllRunChars(x)
    requires RunFree(u) && ',' !in u
    ensures CleanNumeric(Some(p + x + u)) == ParseDecimal(x)
  {
    var s := p + x + u;
    assert ',' !in x;
    assert ',' !in s;
    StripCommasNoComma(s);
    assert s == p + (x + u);
    RunsPrefix(p, x + u);
    RunsLead(x, u);
    if u != [] {
      RunsEmpty(u[1..]);
    }
  }

  /** A cell with a '-' anywhere and two runs is the mean of the two:
      `clean_numeric("1.5 - 2.5 kW") == 2`, `clean_numeric("-2% to 5%") == 3.5`.
      The cell is a prefix without digits or dots, the first run, a
      non-empty separator without digits or dots, the second run, and a rest
      that does not continue it; no part holds a ','. */
  lemma {:induction false} CleanNumericRange(p: Text, x: Text, m: Text, y: Text, u: Text)
    requires RunFree(p) && ',' !in p
    requires |x| > 0 && AllRunChars(x) && |y| > 0 && AllRunChars(y)
    requires RunFree(m) && m != [] && ',' !in m
    requires (u == [] || !IsRunChar(u[0])) && ',' !in u
    requires '-' in p + x + m + y + u
    ensures CleanNumeric(Some(p + x + m + y + u)) == Mean(ParseDecimal(x), ParseDecimal(y))
  {
    var s := p + x + m + y + u;
    assert StripCommas(s) == s by {
      assert ',' !in x && ',' !in y;
      StripCommasNoComma(s);
    }
    RunsOfRange(p, x, m, y, u);
    CleanTextRange(s);
  }

  /** The first two runs of such a cell are its two ends. */
  lemma {:induction false} RunsOfRange(p: Text, x: Text, m: Text, y: Text, u: Text)
    requires RunFree(p) && RunFree(m) && m != []
    requires |x| > 0 && AllRunChars(x) && |y| > 0 && AllRunChars(y)
    requires u == [] || !IsRunChar(u[0])
    ensures var r := Runs(p + x + m + y + u); |r| >= 2 && r[0] == x && r[1] == y
  {
    var rest := m[1..] + (y + u);
    var t := x + [m[0]] + rest;
    assert p + x + m + y + u == p + t by {
      assert m == [m[0]] + m[1..];
    }
    var tail := Runs(y + u);
    assert |tail| >= 1 && tail[0] == y by {
      RunsLead(y, u);
    }
    assert Runs(rest) == tail by {
      RunsPrefix(m[1..], y + u);
    }
    assert Runs(t) == [x] + tail by {
      RunsSplit(x, m[0], rest);
      RunsOfRun(x);
    }
    RunsPrefix(p, t);
  }

  /** The range rule on whole numbers: "a-b" gives (a + b) / 2. */
  lemma {:induction false} CleanNumericRangeWhole(a: nat, b: nat)
    ensures CleanNumeric(Some(ShowNat(a) + "-" + ShowNat(b))) == Some((a + b) as real / 2.0)
  {
    var x, y := ShowNat(a), ShowNat(b);
    assert CleanNumeric(Some(x + "-" + y)) == Mean(ParseDecimal(x), ParseDecimal(y)) by {
      var e: Text, d: Text := [], "-";
      assert e + x == x;
      assert x + d + y + e == x + d + y;
      assert (x + d + y)[|x|] == '-';
      CleanNumericRange(e, x, d, y, e);
    }
    ParseShowNat(a);
    ParseShowNat(b);
    MeanOfNats(a, b);
  }

  /** A growth range from negative to positive: "-2% to 5%" is 3.5. */
  lemma CleanNumericSignedRange()
    ensures CleanNumeric(Some("-2% to 5%")) == Some(3.5)
  {
    var x, y := ShowNat(2), ShowNat(5);
    assert CleanNumeric(Some("-2% to 5%")) == Mean(ParseDecimal(x), ParseDecimal(y)) by {
      assert "-2% to 5%" == "-" + x + "% to " + y + "%" by {
        ShowSmallDigits();
      }
      CleanNumericRange("-", x, "% to ", y, "%");
    }
    ParseShowNat(2);
    ParseShowNat(5);
    MeanOfNats(2, 5);
  }

  /** A '-' after both runs still selects the range rule:
      "10 to 20 (2024-25)" is 15. */
  lemma CleanNumericTrailingDash()
    ensures CleanNumeric(Some("10 to 20 (2024-25)")) == Some(15.0)
  {
    var x, y := ShowNat(10), ShowNat(20);
    assert CleanNumeric(Some("10 to 20 (2024-25)")) == Mean(ParseDecimal(x), ParseDecimal(y)) by {
      var e: Text := [];
      assert "10 to 20 (2024-25)" == e + x + " to " + y + " (2024-25)" by {
        ShowSmallDigits();
      }
      CleanNumericRange(e, x, " to ", y, " (2024-25)");
    }
    ParseShowNat(10);
    ParseShowNat(20);
    MeanOfNats(10, 20);
  }

  lemma ShowSmallDigits()
    ensures ShowNat(2) == "2" && ShowNat(5) == "5"
    ensures ShowNat(10) == "10" && ShowNat(20) == "20"
  {
    assert ShowNat(1) == "1" && ShowNat(0) == "0";
  }

  lemma {:induction false} MeanOfNats(a: nat, b: nat)
    ensures Mean(Some(a as real), Some(b as real)) == Some((a + b) as real / 2.0)
  {
    assert a as real + b as real == (a + b) as real;
  }

  /** A comma-free cell with a '-' and at least two runs is the mean of its
      first two runs. */
  lemma {:induction false} CleanTextRange(s: Text)
    requires StripCommas(s) == s && '-' in s && |Runs(s)| >= 2
    ensures CleanNumeric(Some(s)) == Mean(ParseDecimal(Runs(s)[0]), ParseDecimal(Runs(s)[1]))
  {
  }

  /** A leading minus sign is lost: `clean_numeric("-5") == 5`, because the
      cell has a '-' but only one run. */
  lemma {:induction false} CleanNumericMinusSign(a: nat)
    ensures CleanNumeric(Some("-" + ShowNat(a))) == Some(a as real)
  {
    var x := ShowNat(a);
    assert "-" + x == "-" + x + [];
    CleanNumericOneRun("-", x, []);
    ParseShowNat(a);
  }

  /** A shrinking growth rate loses its sign: "-2.5%" is 2.5. */
  lemma CleanNumericNegativeRate()
    ensures CleanNumeric(Some("-2.5%")) == Some(2.5)
  {
    ParseTenths(2, 5);
    var x := ShowFixed(2, 5, 1);
    assert "-2.5%" == "-" + x + "%" by {
      ShowFixedTwoAndHalf();
    }
    CleanNumericOneRun("-", x, "%");
  }

  lemma ShowFixedTwoAndHalf()
    ensures ShowFixed(2, 5, 1) == "2.5"
  {
    assert ShowNat(2) == "2" && ShowNat(5) == "5";
  }

  /** Thousands separators are dropped before scanning: "1,500" is 1500. */
  lemma CleanNumericThousands()
    ensures CleanNumeric(Some("1,500")) == Some(1500.0)
  {
    assert CleanNumeric(Some("1,500")) == CleanNumeric(Some(ShowNat(1500))) by {
      StripThousands();
      ShowNat1500();
    }
    var t := ShowNat(1500);
    CleanSingleRun(t);
    ParseShowNat(1500);
  }

  lemma StripThousands()
    ensures StripCommas("1,500") == StripCommas("1500") == "1500"
  {
    assert "1,500" == "1" + [','] + "500";
    StripOneComma("1", "500");
    StripCommasNoComma("1500");
  }

  lemma ShowNat1500()
    ensures ShowNat(1500) == "1500"
  {
    assert ShowNat(1) == "1";
    assert ShowNat(15) == "15";
    assert ShowNat(150) == "150";
  }

  /** A cell that is one run is that run's value: a run holds no ',' and
      no '-'. */
  lemma {:induction false} CleanSingleRun(t: Text)
    requires |t| > 0 && AllRunChars(t)
    ensures CleanNumeric(Some(t)) == ParseDecimal(t)
  {
    assert ',' !in t && '-' !in t;
    StripCommasNoComma(t);
    RunsOfRun(t);
  }

  /** A decimal fraction: "0.9" is 0.9. */
  lemma CleanNumericFraction()
    ensures CleanNumeric(Some("0.9")) == Some(0.9)
  {
    assert CleanNumeric(Some("0.9")) == ParseDecimal(ShowFixed(0, 9, 1)) by {
      ShowFixedNineTenths();
      CleanSingleRun(ShowFixed(0, 9, 1));
    }
    ParseTenths(0, 9);
  }

  /** `float()` of a numeral with one decimal place. */
  lemma ParseTenths(whole: nat, tenth: nat)
    requires tenth < 10
    ensures Pow10(1) == 10
    ensures ParseDecimal(ShowFixed(whole, tenth, 1)) == Some(whole as real + tenth as real / 10.0)
  {
    TenPowerOne();
    ParseShowFixed(whole, tenth, 1);
    TenthsOver(tenth as real, Pow10(1) as real);
  }

  lemma TenPowerOne()
    ensures Pow10(1) == 10
  {
  }

  lemma TenthsOver(f: real, d: real)
    requires d == 10.0
    ensures f / d == f / 10.0
  {
  }

  lemma ShowFixedNineTenths()
    ensures ShowFixed(0, 9, 1) == "0.9"
  {
    assert ShowNat(0) == "0" && ShowNat(9) == "9";
  }

  /** A run that `float()` rejects makes the whole call fail: "." raises
      ValueError. */
  lemma CleanNumericLoneDot()
    ensures CleanNumeric(Some(".")) == None
  {
    CleanSingleRun(".");
  }

  /** A run with two dots is rejected too: "1.2.3" raises ValueError. */
  lemma CleanNumericTwoDots()
    ensures CleanNumeric(Some("1.2.3")) == None
  {
    CleanSingleRun("1.2.3");
    ParseTwoDots();
  }

  lemma ParseTwoDots()
    ensures ParseDecimal("1.2.3") == None
  {
    var t := "1.2.3";
    assert FirstDot(t) == 1;
    assert t[2..] == "2.3";
    assert FirstDot("2.3") == 1;
  }

  /** The range heuristic cannot tell an incidental hyphen from a range:
      "Q1-2024" reads as the mean of 1 and 2024. */
  lemma CleanNumericHyphenatedLabel()
    ensures CleanNumeric(Some("Q1-2024")) == Some(1012.5)
  {
    HyphenatedLabelMean();
    ParseLabelRuns();
    MeanOfNats(1, 2024);
  }

  lemma HyphenatedLabelMean()
    ensures CleanNumeric(Some("Q1-2024")) == Mean(ParseDecimal("1"), ParseDecimal("2024"))
  {
    var s := "Q1-2024";
    assert s[2] == '-';
    StripCommasNoComma(s);
    RunsOfLabel();
    CleanTextRange(s);
  }

  lemma ParseLabelRuns()
    ensures ParseDecimal("1") == Some(1 as real) && ParseDecimal("2024") == Some(2024 as real)
  {
    assert ShowNat(1) == "1";
    ShowNat2024();
    ParseShowNat(1);
    ParseShowNat(2024);
  }

  lemma RunsOfLabel()
    ensures Runs("Q1-2024") == ["1", "2024"]
  {
    assert "Q1-2024" == "Q1" + ['-'] + "2024";
    RunsSplit("Q1", '-', "2024");
    assert "Q1" == [] + ['Q'] + "1";
    RunsSplit([], 'Q', "1");
    RunsOfRun("1");
    RunsOfRun("2024");
    assert Runs([]) == [];
  }

  lemma ShowNat2024()
    ensures ShowNat(2024) == "2024"
  {
    assert ShowNat(2) == "2";
    assert ShowNat(20) == "20";
    assert ShowNat(202) == "202";
  }
}
