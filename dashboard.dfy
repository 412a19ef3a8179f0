/** The small computations of the presentation code that act on the cleaned
    table: the default country selection (dashboard_dc.py:118), the category
    legend of the market-position chart (lines 189-192), and the radar chart's
    max-normalised, closed value lists (lines 235-249). */
module Dashboard {
  import opened Wrappers
  import opened Decimal
  import opened Loader
  import Seqs

  /** The benchmark countries pre-selected in the sidebar (line 117). */
  const Defaults: seq<Text> :=
    ["Indonesia", "Singapore", "Malaysia", "United States", "China", "Germany", "Australia"]

  /** `valid_defaults`: the defaults that occur in the table's country list,
      in the order of the defaults. */
  function ValidDefaults(countryList: seq<Text>): (r: seq<Text>)
    ensures forall c :: c in r <==> c in Defaults && c in countryList
    ensures |r| <= |Defaults|
  {
    Seqs.Filter(c => c in countryList, Defaults)
  }

  /** No default is offered twice. */
  lemma ValidDefaultsDistinct(countryList: seq<Text>)
    ensures Seqs.Distinct(ValidDefaults(countryList))
  {
    DefaultsDistinct();
    Seqs.FilterDistinct(c => c in countryList, Defaults);
  }

  /** When every default is in the table, all of them are offered, in their
      original order. */
  lemma ValidDefaultsAll(countryList: seq<Text>)
    requires forall c :: c in Defaults ==> c in countryList
    ensures ValidDefaults(countryList) == Defaults
  {
    Seqs.FilterAll(c => c in countryList, Defaults);
  }

  /** When no default is in the table, none is offered. */
  lemma ValidDefaultsNone(countryList: seq<Text>)
    requires forall c :: c in Defaults ==> c !in countryList
    ensures ValidDefaults(countryList) == []
  {
    Seqs.FilterNone(c => c in countryList, Defaults);
  }

  /** The defaults differ already in their first letters. */
  lemma DefaultsDistinct()
    ensures Seqs.Distinct(Defaults)
  {
    forall i, j | 0 <= i < j < |Defaults| ensures Defaults[i] != Defaults[j] {
      assert Defaults[i][0] != Defaults[j][0];
    }
  }

  /** `get_color`: the legend category of a country. Indonesia is the focus,
      Singapore the benchmark, every other country a peer. */
  function GetColor(country: Text): (category: Text)
    ensures category == "Indonesia (Focus)" <==> country == "Indonesia"
    ensures category == "Singapore (Benchmark)" <==> country == "Singapore"
    ensures category == "Global Peers" <==> country != "Indonesia" && country != "Singapore"
  {
    if country == "Indonesia" then "Indonesia (Focus)"
    else if country == "Singapore" then "Singapore (Benchmark)"
    else "Global Peers"
  }

  /** The radar axes (line 237), in the order they are drawn. */
  const Categories: seq<Column> := [PowerMw, GrowthRate, QualityScore, InternetPen, RenewablePct]

  /** `df[col].max()`; None on an empty table, where pandas gives NaN. */
  function ColumnMax(df: seq<CleanRow>, col: Column): (m: Option<real>)
    ensures m.Some? <==> |df| > 0
    ensures m.Some? ==> forall i :: 0 <= i < |df| ==> Get(df[i], col) <= m.value
    ensures m.Some? ==> exists i :: 0 <= i < |df| && Get(df[i], col) == m.value
  {
    if df == [] then None
    else
      var v := Get(df[0], col);
      match ColumnMax(df[1..], col)
      case None => Some(v)
      case Some(rest) =>
        assert forall i :: 1 <= i < |df| ==> df[i] == df[1..][i - 1];
        if v >= rest then Some(v) else Some(rest)
  }

  /** Line 247: a value over its column's maximum, or 0 when that maximum is
      not positive (NaN compares false as well). */
  function RadarValue(df: seq<CleanRow>, row: CleanRow, col: Column): (v: real)
    ensures ColumnMax(df, col).Some? && ColumnMax(df, col).value > 0.0 ==>
              v * ColumnMax(df, col).value == Get(row, col)
    ensures ColumnMax(df, col).None? || ColumnMax(df, col).value <= 0.0 ==> v == 0.0
  {
    match ColumnMax(df, col)
    case Some(m) => if m > 0.0 then Get(row, col) / m else 0.0
    case None => 0.0
  }

  /** A non-negative value of a row of the same table is scaled into [0, 1],
      and the row holding the maximum reaches 1. */
  lemma {:induction false} RadarValueBounds(df: seq<CleanRow>, row: CleanRow, col: Column)
    requires row in df && Get(row, col) >= 0.0
    ensures 0.0 <= RadarValue(df, row, col) <= 1.0
    ensures ColumnMax(df, col).value > 0.0 && Get(row, col) == ColumnMax(df, col).value
            ==> RadarValue(df, row, col) == 1.0
  {
    var m := ColumnMax(df, col).value;
    var v := Get(row, col);
    var k :| 0 <= k < |df| && df[k] == row;
    assert v <= m;
    if m > 0.0 {
      UnitRatio(v, m);
    }
  }

  lemma UnitRatio(v: real, m: real)
    requires 0.0 <= v <= m && m > 0.0
    ensures 0.0 <= v / m <= 1.0
    ensures v == m ==> v / m == 1.0
  {
    assert v / m * m == v;
  }

  /** Lines 242-249 for one row: the normalised value of each category, then
      the first one again so that the polygon closes. */
  method RadarValues(df: seq<CleanRow>, row: CleanRow, categories: seq<Column>) returns (values: seq<real>)
    requires |categories| > 0
    ensures |values| == |categories| + 1
    ensures forall k :: 0 <= k < |categories| ==> values[k] == RadarValue(df, row, categories[k])
    ensures values[|categories|] == values[0]
  {
    values := [];
    for k := 0 to |categories|
      invariant |values| == k
      invariant forall j :: 0 <= j < k ==> values[j] == RadarValue(df, row, categories[j])
    {
      var col := categories[k];
      var maxVal := ColumnMax(df, col);
      var val := if maxVal.Some? && maxVal.value > 0.0 then Get(row, col) / maxVal.value else 0.0;
      values := values + [val];
    }
    values := values + [values[0]];
  }

  /** The first row of the table for a country (`df[df['country'] == c].iloc[0]`);
      None where pandas raises IndexError. */
  function FindCountry(df: seq<CleanRow>, country: Text): (r: Option<CleanRow>)
    ensures r.Some? <==> exists i :: 0 <= i < |df| && df[i].raw.country == country
    ensures r.Some? ==> r.value in df && r.value.raw.country == country
    ensures r.Some? ==> exists i :: 0 <= i < |df| && df[i] == r.value
                          && forall j :: 0 <= j < i ==> df[j].raw.country != country
  {
    if df == [] then None
    else if df[0].raw.country == country then Some(df[0])
    else
      assert forall i :: 1 <= i < |df| ==> df[i] == df[1..][i - 1];
      var r := FindCountry(df[1..], country);
      if r.Some? then
        var i :| 0 <= i < |df[1..]| && df[1..][i] == r.value
                 && forall j :: 0 <= j < i ==> df[1..][j].raw.country != country;
        assert df[i + 1] == r.value && forall j :: 0 <= j < i + 1 ==> df[j].raw.country != country;
        r
      else r
  }

  /** Looking a country up after a selection that keeps all of its rows finds
      the same row as looking it up in the whole table. */
  lemma {:induction false} FindCountryFiltered(p: CleanRow -> bool, df: seq<CleanRow>, country: Text)
    requires forall i :: 0 <= i < |df| && df[i].raw.country == country ==> p(df[i])
    ensures FindCountry(Seqs.Filter(p, df), country) == FindCountry(df, country)
  {
    if df != [] {
      FindCountryFiltered(p, df[1..], country);
      var tail := Seqs.Filter(p, df[1..]);
      if p(df[0]) {
        assert Seqs.Filter(p, df) == [df[0]] + tail;
        assert ([df[0]] + tail)[1..] == tail;
      } else {
        assert Seqs.Filter(p, df) == tail;
      }
    }
  }

  /** One polygon of the radar chart: the country it belongs to, the closed
      axis labels and the closed value list. */
  datatype Trace = Trace(name: Text, theta: seq<Text>, r: seq<real>)

  /** The axis labels matching `Categories` (line 238). */
  const Labels: seq<Text> :=
    ["Power Capacity", "Annual Growth", "Infra Quality (Tier III+)", "Digital Adoption", "Green Energy"]

  /** A polygon's point list: the points and the first one again. */
  function Closed<T>(xs: seq<T>): (r: seq<T>)
    requires |xs| > 0
    ensures |r| == |xs| + 1 && r[|xs|] == r[0] && r[..|xs|] == xs
  {
    xs + [xs[0]]
  }

  /** The polygon drawn for `country` whose first row is `row`: the labels
      and the values, each closed by repeating its first entry. */
  predicate IsRadarTrace(df: seq<CleanRow>, country: Text, row: CleanRow, t: Trace)
  {
    && t.name == country
    && t.theta == Closed(Labels)
    && |t.r| == |Categories| + 1
    && t.r[|Categories|] == t.r[0]
    && forall j :: 0 <= j < |Categories| ==> t.r[j] == RadarValue(df, row, Categories[j])
  }

  /** The radar loop of lines 235-249: the rows of the chosen countries are
      selected from the table, and for each chosen country, in order, its first
      row gives a closed value list normalised by the maxima of the whole
      table. None when a chosen country has no row (the lookup raises). */
  method RadarTraces(df: seq<CleanRow>, targets: seq<Text>) returns (traces: Option<seq<Trace>>)
    ensures traces.None? <==> exists t :: t in targets && FindCountry(df, t).None?
    ensures traces.Some? ==> |traces.value| == |targets|
    ensures traces.Some? ==> forall k :: 0 <= k < |targets| ==>
      IsRadarTrace(df, targets[k], FindCountry(df, targets[k]).value, traces.value[k])
  {
    var dfRadar := Seqs.Filter((r: CleanRow) => r.raw.country in targets, df);
    var acc: seq<Trace> := [];
    for k := 0 to |targets|
      invariant |acc| == k
      invariant TracesFor(df, targets, acc)
    {
      var trace := RadarTrace(df, targets, dfRadar, targets[k]);
      if trace.None? {
        return None;
      }
      TracesForAppend(df, targets, acc, trace.value);
      acc := acc + [trace.value];
    }
    traces := Some(acc);
  }

  /** `acc` holds the polygons of the first |acc| chosen countries, each of
      which has a row. */
  predicate TracesFor(df: seq<CleanRow>, targets: seq<Text>, acc: seq<Trace>)
  {
    && |acc| <= |targets|
    && (forall i :: 0 <= i < |acc| ==> FindCountry(df, targets[i]).Some?)
    && (forall i :: 0 <= i < |acc| ==>
          IsRadarTrace(df, targets[i], FindCountry(df, targets[i]).value, acc[i]))
  }

  lemma {:induction false} TracesForAppend(df: seq<CleanRow>, targets: seq<Text>, acc: seq<Trace>, t: Trace)
    requires TracesFor(df, targets, acc) && |acc| < |targets|
    requires FindCountry(df, targets[|acc|]).Some?
    requires IsRadarTrace(df, targets[|acc|], FindCountry(df, targets[|acc|]).value, t)
    ensures TracesFor(df, targets, acc + [t])
  {
    var next := acc + [t];
    forall i | 0 <= i < |next|
      ensures IsRadarTrace(df, targets[i], FindCountry(df, targets[i]).value, next[i])
    {
      if i < |acc| {
        assert next[i] == acc[i];
      }
    }
  }

  /** One pass of the radar loop: the first row of `country` among the
      selected rows, drawn as a closed polygon. None when there is no such
      row. */
  method RadarTrace(df: seq<CleanRow>, targets: seq<Text>, dfRadar: seq<CleanRow>, country: Text)
    returns (trace: Option<Trace>)
    requires dfRadar == Seqs.Filter((r: CleanRow) => r.raw.country in targets, df)
    requires country in targets
    ensures trace.None? <==> FindCountry(df, country).None?
    ensures trace.Some? ==> IsRadarTrace(df, country, FindCountry(df, country).value, trace.value)
  {
    FindCountryFiltered((r: CleanRow) => r.raw.country in targets, df, country);
    var found := FindCountry(dfRadar, country);
    if found.None? {
      return None;
    }
    var values := RadarValues(df, found.value, Categories);
    trace := Some(Trace(country, Closed(Labels), values));
  }

  /** On the table `load_and_process_data` produces, every radar value of a
      row of that table lies in [0, 1]: all cleaned columns are
      non-negative and the row is one of those the maxima range over. */
  lemma {:induction false} RadarOnProcessedTable(table: Option<seq<RawRow>>, row: CleanRow, col: Column)
    requires row in Process(table)
    ensures 0.0 <= RadarValue(Process(table), row, col) <= 1.0
  {
    ProcessedRows(table);
    RadarValueBounds(Process(table), row, col);
  }
}
