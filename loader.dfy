/** The cleaning body of `load_and_process_data` (dashboard_dc.py:76-95): five
    text columns parsed by `clean_numeric`, two of them brought to a 0-100
    percentage scale, a tier score derived, and the rows without power or
    internet penetration dropped. Any exception yields an empty table. */
module Loader {
  import opened Wrappers
  import opened Decimal
  import opened NumericCells
  import opened TierScore
  import Seqs

  /** One row of the source table: the country key the dashboard looks rows
      up by, and the six columns the cleaning reads (lines 79-83 and 90); a
      None cell is pandas' missing value. */
  datatype RawRow = RawRow(
    country: Text,
    totalDataCenters: Option<Text>,
    powerCapacityMwTotal: Option<Text>,
    internetPenetrationPercent: Option<Text>,
    averageRenewableEnergyUsagePercent: Option<Text>,
    growthRateOfDataCentersPercentPerYear: Option<Text>,
    tierDistribution: Option<Text>)

  /** The five text columns that `clean_numeric` reads (lines 79-83). */
  datatype RawColumn =
    | TotalDataCenters | PowerCapacityMwTotal | InternetPenetrationPercent
    | AverageRenewableEnergyUsagePercent | GrowthRateOfDataCentersPercentPerYear

  function Cell(r: RawRow, c: RawColumn): Option<Text>
  {
    match c
    case TotalDataCenters => r.totalDataCenters
    case PowerCapacityMwTotal => r.powerCapacityMwTotal
    case InternetPenetrationPercent => r.internetPenetrationPercent
    case AverageRenewableEnergyUsagePercent => r.averageRenewableEnergyUsagePercent
    case GrowthRateOfDataCentersPercentPerYear => r.growthRateOfDataCentersPercentPerYear
  }

  /** A row of the processed table: the source row, still carried whole, and
      the six derived columns. */
  datatype CleanRow = CleanRow(
    raw: RawRow,
    dcCount: real,
    powerMw: real,
    internetPen: real,
    renewablePct: real,
    growthRate: real,
    qualityScore: real)

  /** The derived columns, by the names the dashboard gives them. */
  datatype Column = DcCount | PowerMw | InternetPen | RenewablePct | GrowthRate | QualityScore

  function Get(r: CleanRow, c: Column): real
  {
    match c
    case DcCount => r.dcCount
    case PowerMw => r.powerMw
    case InternetPen => r.internetPen
    case RenewablePct => r.renewablePct
    case GrowthRate => r.growthRate
    case QualityScore => r.qualityScore
  }

  /** Line 87: a value in (0, 1] is read as a fraction and scaled by 100. */
  function ScaleFraction(x: real): real
  {
    if x <= 1.0 && x > 0.0 then x * 100.0 else x
  }

  /** Line 88: anything above 100 is clamped to 100. */
  function Clamp100(x: real): real
  {
    if x > 100.0 then 100.0 else x
  }

  /** The two passes of the percentage loop (lines 86-88) on one value. */
  function NormalizePercent(x: real): (r: real)
    ensures r <= 100.0
    ensures x >= 0.0 ==> r >= 0.0
    ensures r > 0.0 <==> x > 0.0
  {
    Clamp100(ScaleFraction(x))
  }

  /** What the percentage step does in each range of its input. */
  lemma NormalizePercentCases(x: real)
    ensures 0.0 < x <= 1.0 ==> NormalizePercent(x) == 100.0 * x
    ensures 1.0 < x <= 100.0 ==> NormalizePercent(x) == x
    ensures x <= 0.0 ==> NormalizePercent(x) == x
    ensures x > 100.0 ==> NormalizePercent(x) == 100.0
  {
  }

  /** The processed row of one source row; None when a `clean_numeric` call
      on it raises. */
  function CleanRowOf(r: RawRow): Option<CleanRow>
  {
    var dc := CleanNumeric(r.totalDataCenters);
    var pw := CleanNumeric(r.powerCapacityMwTotal);
    var ip := CleanNumeric(r.internetPenetrationPercent);
    var rp := CleanNumeric(r.averageRenewableEnergyUsagePercent);
    var gr := CleanNumeric(r.growthRateOfDataCentersPercentPerYear);
    if dc.Some? && pw.Some? && ip.Some? && rp.Some? && gr.Some? then
      Some(CleanRow(r, dc.value, pw.value, NormalizePercent(ip.value), NormalizePercent(rp.value),
                    gr.value, CleanTierScore(r.tierDistribution) as real))
    else None
  }

  /** The viability filter of line 91. */
  predicate Viable(r: CleanRow)
  {
    r.powerMw > 0.0 && r.internetPen > 0.0
  }

  /** Every row cleaned, or None as soon as one of them raises. */
  function CleanRows(rows: seq<RawRow>): (r: Option<seq<CleanRow>>)
    ensures r.Some? <==> forall i :: 0 <= i < |rows| ==> CleanRowOf(rows[i]).Some?
    ensures r.Some? ==> |r.value| == |rows|
    ensures r.Some? ==> forall i :: 0 <= i < |rows| ==> r.value[i] == CleanRowOf(rows[i]).value
  {
    Seqs.TryMap(CleanRowOf, rows)
  }

  /** `load_and_process_data()` as a function of what `pd.read_csv` returned
      (None: the file could not be read, or it lacks one of the six columns
      the function reads). */
  function Process(table: Option<seq<RawRow>>): (r: seq<CleanRow>)
    ensures forall i :: 0 <= i < |r| ==> Viable(r[i])
    ensures |r| <= if table.Some? then |table.value| else 0
  {
    match table
    case None => []
    case Some(rows) =>
      match CleanRows(rows)
      case None => []
      case Some(cleaned) => Seqs.Filter(Viable, cleaned)
  }

  /** `df[c].apply(clean_numeric)`: the whole parsed column, or None when one
      cell raises. */
  function CleanColumn(rows: seq<RawRow>, c: RawColumn): (r: Option<seq<real>>)
    ensures r.Some? <==> forall i :: 0 <= i < |rows| ==> CleanNumeric(Cell(rows[i], c)).Some?
    ensures r.Some? ==> |r.value| == |rows|
    ensures r.Some? ==> forall i :: 0 <= i < |rows| ==> r.value[i] == CleanNumeric(Cell(rows[i], c)).value
  {
    Seqs.TryMap((row: RawRow) => CleanNumeric(Cell(row, c)), rows)
  }

  /** The derived columns, by name, while the table is being built. */
  type Frame = map<Column, seq<real>>

  /** Every named column is present and has one value per row. */
  predicate Complete(frame: Frame, n: nat)
  {
    forall col: Column :: col in frame && |frame[col]| == n
  }

  /** The rows of a complete frame, next to the source rows they came from. */
  function Assemble(rows: seq<RawRow>, frame: Frame): (r: seq<CleanRow>)
    requires Complete(frame, |rows|)
    ensures |r| == |rows|
  {
    seq(|rows|, i requires 0 <= i < |rows| =>
      CleanRow(rows[i], frame[DcCount][i], frame[PowerMw][i], frame[InternetPen][i],
               frame[RenewablePct][i], frame[GrowthRate][i], frame[QualityScore][i]))
  }

  /** The percentage loop of lines 86-88: for each named column, first scale
      the fractions, then clamp at 100, replacing the column each time. The
      other columns are left alone. */
  method NormalizeColumns(frame: Frame, cols: seq<Column>) returns (out: Frame)
    requires forall k, m :: 0 <= k < m < |cols| ==> cols[k] != cols[m]
    requires forall k :: 0 <= k < |cols| ==> cols[k] in frame
    ensures out.Keys == frame.Keys
    ensures forall col :: col in frame ==> |out[col]| == |frame[col]|
    ensures forall col :: col in frame && col !in cols ==> out[col] == frame[col]
    ensures forall col, i :: col in cols && 0 <= i < |frame[col]| ==>
              out[col][i] == NormalizePercent(frame[col][i])
  {
    out := frame;
    for c := 0 to |cols|
      invariant out.Keys == frame.Keys
      invariant forall col :: col in frame ==> |out[col]| == |frame[col]|
      invariant forall col :: col in frame && col !in cols[..c] ==> out[col] == frame[col]
      invariant forall col, i :: col in cols[..c] && 0 <= i < |frame[col]| ==>
                  out[col][i] == NormalizePercent(frame[col][i])
    {
      var col := cols[c];
      assert col !in cols[..c];
      var xs := out[col];
      out := out[col := seq(|xs|, i requires 0 <= i < |xs| => ScaleFraction(xs[i]))];
      var ys := out[col];
      out := out[col := seq(|ys|, i requires 0 <= i < |ys| => Clamp100(ys[i]))];
      assert cols[..c + 1] == cols[..c] + [col];
    }
    assert cols[..|cols|] == cols;
  }

  /** Line 91, `df[(df['power_mw'] > 0) & (df['internet_pen'] > 0)]`: the rows
      whose mask entry holds, in order. */
  method KeepViable(rows: seq<RawRow>, frame: Frame) returns (df: seq<CleanRow>)
    requires Complete(frame, |rows|)
    ensures df == Seqs.Filter(Viable, Assemble(rows, frame))
  {
    var all := Assemble(rows, frame);
    df := [];
    for i := 0 to |rows|
      invariant df == Seqs.Filter(Viable, all[..i])
    {
      var mask := frame[PowerMw][i] > 0.0 && frame[InternetPen][i] > 0.0;
      assert all[..i + 1] == all[..i] + [all[i]];
      Seqs.FilterAppend(Viable, all[..i], [all[i]]);
      if mask {
        df := df + [all[i]];
      }
    }
    assert all[..|rows|] == all;
  }

  /** The body of `load_and_process_data`: the frame built column by column,
      then the viable rows kept; an exception on the way leaves an empty
      table. The result is the row-by-row specification `Process`. */
  method LoadAndProcess(table: Option<seq<RawRow>>) returns (df: seq<CleanRow>)
    ensures df == Process(table)
  {
    if table.None? {
      return [];
    }
    var rows := table.value;
    var frame := BuildFrame(rows);
    if frame.None? {
      return [];
    }
    df := KeepViable(rows, frame.value);
  }

  /** Lines 79-90, as the source does them: each text column parsed into a
      numeric column, the percentage columns rewritten in a loop over their
      names, and the tier score added. None when a cell raises. The frame
      holds exactly the rows of the row-by-row specification. */
  method BuildFrame(rows: seq<RawRow>) returns (frame: Option<Frame>)
    ensures frame.None? <==> CleanRows(rows).None?
    ensures frame.Some? ==> Complete(frame.value, |rows|)
    ensures frame.Some? ==> Assemble(rows, frame.value) == CleanRows(rows).value
  {
    var dc := CleanColumn(rows, TotalDataCenters);
    if dc.None? {
      NoCleanRows(rows, TotalDataCenters);
      return None;
    }
    var pw := CleanColumn(rows, PowerCapacityMwTotal);
    if pw.None? {
      NoCleanRows(rows, PowerCapacityMwTotal);
      return None;
    }
    var ip := CleanColumn(rows, InternetPenetrationPercent);
    if ip.None? {
      NoCleanRows(rows, InternetPenetrationPercent);
      return None;
    }
    var rp := CleanColumn(rows, AverageRenewableEnergyUsagePercent);
    if rp.None? {
      NoCleanRows(rows, AverageRenewableEnergyUsagePercent);
      return None;
    }
    var gr := CleanColumn(rows, GrowthRateOfDataCentersPercentPerYear);
    if gr.None? {
      NoCleanRows(rows, GrowthRateOfDataCentersPercentPerYear);
      return None;
    }
    var df := DeriveColumns(rows, dc.value, pw.value, ip.value, rp.value, gr.value);
    frame := Some(df);
  }

  /** Lines 84-90: the five parsed columns put in a frame, the percentage
      columns rewritten by the loop over their names, and the tier score
      column added. Read row by row, the frame is the row-by-row cleaning. */
  method DeriveColumns(rows: seq<RawRow>, dc: seq<real>, pw: seq<real>, ip: seq<real>,
                       rp: seq<real>, gr: seq<real>) returns (df: Frame)
    requires CleanColumn(rows, TotalDataCenters) == Some(dc)
    requires CleanColumn(rows, PowerCapacityMwTotal) == Some(pw)
    requires CleanColumn(rows, InternetPenetrationPercent) == Some(ip)
    requires CleanColumn(rows, AverageRenewableEnergyUsagePercent) == Some(rp)
    requires CleanColumn(rows, GrowthRateOfDataCentersPercentPerYear) == Some(gr)
    ensures Complete(df, |rows|)
    ensures CleanRows(rows).Some? && Assemble(rows, df) == CleanRows(rows).value
  {
    var parsed := map[DcCount := dc, PowerMw := pw, InternetPen := ip, RenewablePct := rp, GrowthRate := gr];
    var norm := NormalizeColumns(parsed, [InternetPen, RenewablePct]);
    var n := |rows|;
    df := norm[QualityScore := seq(n, i requires 0 <= i < n => CleanTierScore(rows[i].tierDistribution) as real)];
    CompleteOfColumns(df, n);
    FrameRows(rows, dc, pw, ip, rp, gr, df);
  }

  /** A frame holding each of the six columns at length n is complete. */
  lemma CompleteOfColumns(df: Frame, n: nat)
    requires DcCount in df && |df[DcCount]| == n
    requires PowerMw in df && |df[PowerMw]| == n
    requires InternetPen in df && |df[InternetPen]| == n
    requires RenewablePct in df && |df[RenewablePct]| == n
    requires GrowthRate in df && |df[GrowthRate]| == n
    requires QualityScore in df && |df[QualityScore]| == n
    ensures Complete(df, n)
  {
    forall col: Column ensures col in df && |df[col]| == n {
      match col
      case DcCount =>
      case PowerMw =>
      case InternetPen =>
      case RenewablePct =>
      case GrowthRate =>
      case QualityScore =>
    }
  }

  /** The frame after the percentage loop and the tier column, read row by
      row, is the row-by-row cleaning. */
  lemma {:induction false} FrameRows(rows: seq<RawRow>, dc: seq<real>, pw: seq<real>, ip: seq<real>,
                                     rp: seq<real>, gr: seq<real>, df: Frame)
    requires CleanColumn(rows, TotalDataCenters) == Some(dc)
    requires CleanColumn(rows, PowerCapacityMwTotal) == Some(pw)
    requires CleanColumn(rows, InternetPenetrationPercent) == Some(ip)
    requires CleanColumn(rows, AverageRenewableEnergyUsagePercent) == Some(rp)
    requires CleanColumn(rows, GrowthRateOfDataCentersPercentPerYear) == Some(gr)
    requires Complete(df, |rows|)
    requires df[DcCount] == dc && df[PowerMw] == pw && df[GrowthRate] == gr
    requires forall i :: 0 <= i < |rows| ==> df[InternetPen][i] == NormalizePercent(ip[i])
    requires forall i :: 0 <= i < |rows| ==> df[RenewablePct][i] == NormalizePercent(rp[i])
    requires forall i :: 0 <= i < |rows| ==> df[QualityScore][i] == CleanTierScore(rows[i].tierDistribution) as real
    ensures CleanRows(rows).Some?
    ensures Assemble(rows, df) == CleanRows(rows).value
  {
    ColumnsToRows(rows, dc, pw, ip, rp, gr);
  }

  /** A column that raises leaves no processed rows. */
  lemma {:induction false} NoCleanRows(rows: seq<RawRow>, c: RawColumn)
    requires CleanColumn(rows, c).None?
    ensures CleanRows(rows).None?
  {
    var i :| 0 <= i < |rows| && CleanNumeric(Cell(rows[i], c)).None?;
    CleanRowOfNone(rows[i], c);
  }

  /** One cell that raises makes its whole row raise. */
  lemma CleanRowOfNone(r: RawRow, c: RawColumn)
    requires CleanNumeric(Cell(r, c)).None?
    ensures CleanRowOf(r).None?
  {
  }

  /** Parsed columns, put side by side, are the rows of the row-by-row
      specification. */
  lemma {:induction false} ColumnsToRows(rows: seq<RawRow>, dc: seq<real>, pw: seq<real>, ip: seq<real>, rp: seq<real>, gr: seq<real>)
    requires CleanColumn(rows, TotalDataCenters) == Some(dc)
    requires CleanColumn(rows, PowerCapacityMwTotal) == Some(pw)
    requires CleanColumn(rows, InternetPenetrationPercent) == Some(ip)
    requires CleanColumn(rows, AverageRenewableEnergyUsagePercent) == Some(rp)
    requires CleanColumn(rows, GrowthRateOfDataCentersPercentPerYear) == Some(gr)
    ensures CleanRows(rows).Some?
    ensures forall i :: 0 <= i < |rows| ==>
      CleanRows(rows).value[i] == CleanRow(rows[i], dc[i], pw[i], NormalizePercent(ip[i]), NormalizePercent(rp[i]),
                                           gr[i], CleanTierScore(rows[i].tierDistribution) as real)
  {
    forall i | 0 <= i < |rows|
      ensures CleanRowOf(rows[i]) == Some(CleanRow(rows[i], dc[i], pw[i], NormalizePercent(ip[i]),
                                           NormalizePercent(rp[i]), gr[i], CleanTierScore(rows[i].tierDistribution) as real))
    {
      assert Cell(rows[i], TotalDataCenters) == rows[i].totalDataCenters;
      assert Cell(rows[i], PowerCapacityMwTotal) == rows[i].powerCapacityMwTotal;
      assert Cell(rows[i], InternetPenetrationPercent) == rows[i].internetPenetrationPercent;
      assert Cell(rows[i], AverageRenewableEnergyUsagePercent) == rows[i].averageRenewableEnergyUsagePercent;
      assert Cell(rows[i], GrowthRateOfDataCentersPercentPerYear) == rows[i].growthRateOfDataCentersPercentPerYear;
    }
  }

  /** Every kept row is viable, comes from a source row, and has its columns
      in the ranges the cleaning promises: counts, power, growth and quality
      never negative, both percentages within [0, 100]. */
  lemma {:induction false} ProcessedRows(table: Option<seq<RawRow>>)
    ensures forall r :: r in Process(table) ==>
      && r.powerMw > 0.0 && 0.0 < r.internetPen <= 100.0
      && 0.0 <= r.renewablePct <= 100.0
      && r.dcCount >= 0.0 && r.growthRate >= 0.0 && r.qualityScore >= 0.0
      && exists i :: 0 <= i < |table.value| && CleanRowOf(table.value[i]) == Some(r)
  {
    forall r | r in Process(table)
      ensures r.powerMw > 0.0 && 0.0 < r.internetPen <= 100.0
      ensures 0.0 <= r.renewablePct <= 100.0
      ensures r.dcCount >= 0.0 && r.growthRate >= 0.0 && r.qualityScore >= 0.0
      ensures exists i :: 0 <= i < |table.value| && CleanRowOf(table.value[i]) == Some(r)
    {
      var i := ProcessedSource(table, r);
      CleanRowRanges(table.value[i], r);
    }
  }

  /** A kept row is viable and is the cleaning of some source row. */
  lemma {:induction false} ProcessedSource(table: Option<seq<RawRow>>, r: CleanRow) returns (i: nat)
    requires r in Process(table)
    ensures Viable(r) && table.Some? && i < |table.value| && CleanRowOf(table.value[i]) == Some(r)
  {
    var cleaned := CleanRows(table.value).value;
    assert Process(table) == Seqs.Filter(Viable, cleaned);
    assert r in cleaned && Viable(r);
    i :| 0 <= i < |table.value| && cleaned[i] == r;
  }

  /** The ranges of one cleaned row. */
  lemma CleanRowRanges(raw: RawRow, r: CleanRow)
    requires CleanRowOf(raw) == Some(r)
    ensures 0.0 <= r.internetPen <= 100.0 && 0.0 <= r.renewablePct <= 100.0
    ensures r.dcCount >= 0.0 && r.powerMw >= 0.0 && r.growthRate >= 0.0 && r.qualityScore >= 0.0
  {
  }

  /** A single cell that `clean_numeric` cannot parse empties the whole
      table (the `except` branch), whatever the other rows hold. */
  lemma {:induction false} ProcessFailure(rows: seq<RawRow>, i: nat, c: RawColumn)
    requires i < |rows| && CleanNumeric(Cell(rows[i], c)).None?
    ensures Process(Some(rows)) == []
  {
    assert CleanRowOf(rows[i]).None?;
  }

  /** When nothing raises, every viable row is kept. */
  lemma {:induction false} ProcessKeepsViable(rows: seq<RawRow>, i: nat)
    requires i < |rows| && CleanRows(rows).Some?
    requires Viable(CleanRowOf(rows[i]).value)
    ensures CleanRowOf(rows[i]).value in Process(Some(rows))
  {
    assert CleanRows(rows).value[i] == CleanRowOf(rows[i]).value;
  }

  lemma {:induction false} CleanRowsAppend(a: seq<RawRow>, b: seq<RawRow>)
    requires CleanRows(a).Some? && CleanRows(b).Some?
    ensures CleanRows(a + b) == Some(CleanRows(a).value + CleanRows(b).value)
  {
    Seqs.TryMapAppend(CleanRowOf, a, b);
  }

  /** The filter keeps the original order: processing two blocks of rows is
      processing each block and concatenating. */
  lemma {:induction false} ProcessAppend(a: seq<RawRow>, b: seq<RawRow>)
    requires CleanRows(a).Some? && CleanRows(b).Some?
    ensures Process(Some(a + b)) == Process(Some(a)) + Process(Some(b))
  {
    CleanRowsAppend(a, b);
    Seqs.FilterAppend(Viable, CleanRows(a).value, CleanRows(b).value);
  }

  /** A source row with a power range, a fractional internet penetration and
      a tier label. */
  function ExampleRow(): RawRow
  {
    RawRow("A", Some("10-20"), Some("50"), Some("0.9"), Some("40"), Some("5"),
           Some("Tier III: 60%, Tier IV: 10%"))
  }

  /** A row whose cells all parse is cleaned column by column; a table of
      that one row keeps it exactly when it is viable. */
  lemma {:induction false} ProcessSingle(r: RawRow, dc: real, pw: real, ip: real, rp: real, gr: real)
    requires CleanNumeric(r.totalDataCenters) == Some(dc)
    requires CleanNumeric(r.powerCapacityMwTotal) == Some(pw)
    requires CleanNumeric(r.internetPenetrationPercent) == Some(ip)
    requires CleanNumeric(r.averageRenewableEnergyUsagePercent) == Some(rp)
    requires CleanNumeric(r.growthRateOfDataCentersPercentPerYear) == Some(gr)
    ensures var row := CleanRow(r, dc, pw, NormalizePercent(ip), NormalizePercent(rp), gr,
                                CleanTierScore(r.tierDistribution) as real);
            Process(Some([r])) == if Viable(row) then [row] else []
  {
    assert [r][1..] == [];
  }

  /** The example row cleans to 15 facilities, 50 MW, 90% internet, 40%
      renewables, 5% growth and a quality score of 70, and is kept. */
  lemma ProcessExample()
    ensures Process(Some([ExampleRow()])) == [CleanRow(ExampleRow(), 15.0, 50.0, 90.0, 40.0, 5.0, 70.0)]
  {
    var r := ExampleRow();
    assert CleanNumeric(r.totalDataCenters) == Some(15.0) by { ExampleRange(); }
    assert CleanNumeric(r.powerCapacityMwTotal) == Some(50.0) by { ExampleWhole(50); ShowSmallNats(); }
    assert CleanNumeric(r.internetPenetrationPercent) == Some(0.9) by { CleanNumericFraction(); }
    assert CleanNumeric(r.averageRenewableEnergyUsagePercent) == Some(40.0) by {
      ExampleWhole(40);
      ShowSmallNats();
    }
    assert CleanNumeric(r.growthRateOfDataCentersPercentPerYear) == Some(5.0) by {
      ExampleWhole(5);
      ShowSmallNats();
    }
    assert CleanTierScore(r.tierDistribution) == 70 by { ExampleTier(); }
    ProcessSingle(r, 15.0, 50.0, 0.9, 40.0, 5.0);
  }

  lemma ExampleRange()
    ensures CleanNumeric(Some("10-20")) == Some(15.0)
  {
    ShowNat10And20();
    CleanNumericRangeWhole(10, 20);
  }

  lemma ShowNat10And20()
    ensures ShowNat(10) + "-" + ShowNat(20) == "10-20"
  {
    assert ShowNat(1) == "1" && ShowNat(2) == "2";
  }

  lemma ExampleWhole(n: nat)
    requires n == 50 || n == 40 || n == 5
    ensures CleanNumeric(Some(ShowNat(n))) == Some(n as real)
  {
    CleanNumericLeading([], ShowNat(n), []);
    assert [] + ShowNat(n) + [] == ShowNat(n);
    ParseShowNat(n);
  }

  lemma ShowSmallNats()
    ensures ShowNat(10) == "10" && ShowNat(20) == "20" && ShowNat(40) == "40"
    ensures ShowNat(50) == "50" && ShowNat(5) == "5" && ShowNat(60) == "60"
  {
    assert ShowNat(1) == "1" && ShowNat(2) == "2" && ShowNat(4) == "4" && ShowNat(6) == "6";
  }

  lemma ExampleTier()
    ensures CleanTierScore(Some("Tier III: 60%, Tier IV: 10%")) == 70
  {
    LabelOf60And10();
    TierScoreOfLabel(60, 10);
  }

  lemma LabelOf60And10()
    ensures Label(ShowNat(60), ShowNat(10)) == "Tier III: 60%, Tier IV: 10%"
  {
    assert ShowNat(6) == "6" && ShowNat(1) == "1";
  }
}
