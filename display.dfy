/** The dashboard's view of an impact frame (utils/display.py): the metric
    names offered to the user, the long-format rows handed to the bar chart,
    and the summary statistics with the payback period. */
module Display {
  import opened Series
  import opened Inputs
  import opened Impact

  // Display names of the three metrics
  const Bills: string := "Electricity Bills (£)"
  const Emissions: string := "Electricity Emissions (kg CO₂e)"
  const Consumption: string := "Electricity Consumption (kWh)"

  // Capital costs in GBP
  const CostPerPanel: int := 300
  const CostOfLed: int := 200

  /** What the dashboard code can raise: pandas' `KeyError` for an unknown
      metric, Python's `IndexError` when a selection is missing. */
  datatype DisplayError = KeyError(key: string) | IndexError(name: string)

  /** `get_column_pairs`: each display name with its (base, modified) pair. */
  function ColumnPairs(): (r: map<string, (string, string)>)
    ensures forall k :: k in r ==> r[k].0 != r[k].1
    ensures forall a, b :: a in r && b in r && a != b ==> r[a].0 != r[b].0 && r[a].1 != r[b].1
  {
    map[Bills := ("elec_spend_gbp", "elec_spend_modified_gbp"),
        Emissions := ("elec_emissions_kg_co2e", "elec_emissions_modified_kg_co2e"),
        Consumption := ("elec_consumption_kwh", "elec_consumption_modified")]
  }

  /** `df[name]` for the numeric columns of an impact frame. */
  function Column(df: ImpactFrame, name: string): Option<seq<real>>
  {
    match name
    case "elec_consumption_kwh" => Some(df.data.consumption)
    case "elec_spend_gbp" => Some(df.data.spend)
    case "elec_emissions_kg_co2e" => Some(df.data.emissions)
    case "elec_consumption_modified" => Some(df.consumptionModified)
    case "elec_spend_modified_gbp" => Some(df.spendModified)
    case "elec_emissions_modified_kg_co2e" => Some(df.emissionsModified)
    case _ => None
  }

  /** The three metrics, and for each one the column that holds it and the
      column the impact calculation added for it. */
  lemma ColumnPairsResolve(df: ImpactFrame)
    ensures ColumnPairs().Keys == {Bills, Emissions, Consumption}
    ensures Column(df, ColumnPairs()[Bills].0) == Some(df.data.spend)
    ensures Column(df, ColumnPairs()[Bills].1) == Some(df.spendModified)
    ensures Column(df, ColumnPairs()[Emissions].0) == Some(df.data.emissions)
    ensures Column(df, ColumnPairs()[Emissions].1) == Some(df.emissionsModified)
    ensures Column(df, ColumnPairs()[Consumption].0) == Some(df.data.consumption)
    ensures Column(df, ColumnPairs()[Consumption].1) == Some(df.consumptionModified)
  {
  }

  /** The 'View' tag of a plot row. */
  datatype View = Original | Modified

  /** One row of the long-format frame: Month, Value and View. */
  datatype PlotRow = PlotRow(month: string, value: real, view: View)

  /** Month i paired with value i, every row tagged with the same view. */
  function Tagged(months: seq<string>, values: seq<real>, view: View): (r: seq<PlotRow>)
    requires |values| == |months|
    ensures |r| == |months|
    ensures forall i :: 0 <= i < |r| ==> r[i] == PlotRow(months[i], values[i], view)
  {
    seq(|months|, i requires 0 <= i < |months| => PlotRow(months[i], values[i], view))
  }

  /** `plot_data[plot_data['View'] == view]`: the rows with that tag, in order. */
  function Where(rows: seq<PlotRow>, view: View): (r: seq<PlotRow>)
    ensures |r| <= |rows|
    ensures forall i :: 0 <= i < |r| ==> r[i].view == view
  {
    if rows == [] then []
    else if rows[0].view == view then [rows[0]] + Where(rows[1..], view)
    else Where(rows[1..], view)
  }

  lemma {:induction false} WhereConcat(a: seq<PlotRow>, b: seq<PlotRow>, view: View)
    ensures Where(a + b, view) == Where(a, view) + Where(b, view)
  {
    if a == [] {
      assert a + b == b;
    } else {
      assert (a + b)[0] == a[0];
      assert (a + b)[1..] == a[1..] + b;
      WhereConcat(a[1..], b, view);
    }
  }

  /** Filtering keeps a list whose rows all carry the tag, and empties one
      whose rows all carry the other tag. */
  lemma {:induction false} WhereUniform(rows: seq<PlotRow>, tag: View, view: View)
    requires forall i :: 0 <= i < |rows| ==> rows[i].view == tag
    ensures tag == view ==> Where(rows, view) == rows
    ensures tag != view ==> Where(rows, view) == []
  {
    if rows != [] {
      assert rows[0].view == tag;
      WhereUniform(rows[1..], tag, view);
      assert rows == [rows[0]] + rows[1..];
    }
  }

  /** `prepare_data_for_plotting`: the base rows tagged original followed by
      the modified rows tagged modified, then kept whole or filtered by the
      selected view. An unknown metric is pandas' `KeyError`. A data frame
      always has one entry per row in every column. */
  function PrepareDataForPlotting(df: ImpactFrame, metricDisplayName: string, selectedView: string)
    : (r: Result<seq<PlotRow>, DisplayError>)
    requires df.Rectangular()
    ensures r.Err? <==> metricDisplayName !in ColumnPairs()
    ensures r.Err? ==> r.error == KeyError(metricDisplayName)
  {
    if metricDisplayName !in ColumnPairs() then Err(KeyError(metricDisplayName))
    else
      var (baseCol, modifiedCol) := ColumnPairs()[metricDisplayName];
      ColumnPairsResolve(df);
      var months := df.data.months;
      var plotData := Tagged(months, Column(df, baseCol).value, Original)
                      + Tagged(months, Column(df, modifiedCol).value, Modified);
      if selectedView == "Original Only" then Ok(Where(plotData, Original))
      else if selectedView == "Modified Only" then Ok(Where(plotData, Modified))
      else Ok(plotData)
  }

  /** The base and modified columns that a known metric plots. */
  function BaseOf(df: ImpactFrame, metric: string): seq<real>
    requires metric in ColumnPairs()
  {
    ColumnPairsResolve(df);
    Column(df, ColumnPairs()[metric].0).value
  }

  function ModifiedOf(df: ImpactFrame, metric: string): seq<real>
    requires metric in ColumnPairs()
  {
    ColumnPairsResolve(df);
    Column(df, ColumnPairs()[metric].1).value
  }

  /** With view "Both" (or any view that is not a filter) there are twice as
      many rows as months: every month with its base value tagged original,
      then every month again with its modified value tagged modified. */
  lemma PlotBoth(df: ImpactFrame, metric: string, selectedView: string)
    requires df.Rectangular()
    requires metric in ColumnPairs()
    requires selectedView != "Original Only" && selectedView != "Modified Only"
    ensures var r := PrepareDataForPlotting(df, metric, selectedView);
            var n := |df.data.months|;
            && r.Ok?
            && |r.value| == 2 * n
            && (forall i :: 0 <= i < n ==> r.value[i] == PlotRow(df.data.months[i], BaseOf(df, metric)[i], Original))
            && (forall i :: n <= i < 2 * n ==> r.value[i] == PlotRow(df.data.months[i - n], ModifiedOf(df, metric)[i - n], Modified))
  {
    ColumnPairsResolve(df);
  }

  /** "Original Only" keeps exactly the original rows, in month order. */
  lemma PlotOriginalOnly(df: ImpactFrame, metric: string)
    requires df.Rectangular()
    requires metric in ColumnPairs()
    ensures var r := PrepareDataForPlotting(df, metric, "Original Only");
            && r.Ok?
            && |r.value| == |df.data.months|
            && forall i :: 0 <= i < |r.value| ==> r.value[i] == PlotRow(df.data.months[i], BaseOf(df, metric)[i], Original)
  {
    ColumnPairsResolve(df);
    var months := df.data.months;
    var base := Tagged(months, BaseOf(df, metric), Original);
    var modified := Tagged(months, ModifiedOf(df, metric), Modified);
    WhereConcat(base, modified, Original);
    WhereUniform(base, Original, Original);
    WhereUniform(modified, Modified, Original);
    assert base + [] == base;
  }

  /** "Modified Only" keeps exactly the modified rows, in month order. */
  lemma PlotModifiedOnly(df: ImpactFrame, metric: string)
    requires df.Rectangular()
    requires metric in ColumnPairs()
    ensures var r := PrepareDataForPlotting(df, metric, "Modified Only");
            && r.Ok?
            && |r.value| == |df.data.months|
            && forall i :: 0 <= i < |r.value| ==> r.value[i] == PlotRow(df.data.months[i], ModifiedOf(df, metric)[i], Modified)
  {
    ColumnPairsResolve(df);
    var months := df.data.months;
    var base := Tagged(months, BaseOf(df, metric), Original);
    var modified := Tagged(months, ModifiedOf(df, metric), Modified);
    WhereConcat(base, modified, Modified);
    WhereUniform(base, Original, Modified);
    WhereUniform(modified, Modified, Modified);
    assert [] + modified == modified;
  }

  /** The two filtered views together are the unfiltered view. */
  lemma PlotViewsPartition(df: ImpactFrame, metric: string)
    requires df.Rectangular()
    requires metric in ColumnPairs()
    ensures PrepareDataForPlotting(df, metric, "Both").value
            == PrepareDataForPlotting(df, metric, "Original Only").value
               + PrepareDataForPlotting(df, metric, "Modified Only").value
  {
    ColumnPairsResolve(df);
    var months := df.data.months;
    var base := Tagged(months, BaseOf(df, metric), Original);
    var modified := Tagged(months, ModifiedOf(df, metric), Modified);
    WhereConcat(base, modified, Original);
    WhereConcat(base, modified, Modified);
    WhereUniform(base, Original, Original);
    WhereUniform(modified, Modified, Original);
    WhereUniform(base, Original, Modified);
    WhereUniform(modified, Modified, Modified);
    assert base + [] == base;
    assert [] + modified == modified;
  }

  /** The value of the first selection with this name, as
      `[d for d in inputs if d["name"] == name][0]["value"]` finds it. */
  function FirstValue(inputs: seq<Modifier>, name: string): (r: Option<ModValue>)
    ensures r.None? ==> forall k :: 0 <= k < |inputs| ==> inputs[k].name != name
    ensures r.Some? ==> Modifier(name, r.value) in inputs
  {
    if inputs == [] then None
    else if inputs[0].name == name then Some(inputs[0].value)
    else FirstValue(inputs[1..], name)
  }

  /** FirstValue is None exactly when no selection has the name, and
      otherwise the value of the earliest one that has it. */
  lemma {:induction false} FirstValueIsFirstEntry(inputs: seq<Modifier>, name: string)
    ensures FirstValue(inputs, name).None? <==> forall k :: 0 <= k < |inputs| ==> inputs[k].name != name
    ensures FirstValue(inputs, name).Some? ==>
              exists k :: && 0 <= k < |inputs| && inputs[k].name == name
                          && inputs[k].value == FirstValue(inputs, name).value
                          && forall j :: 0 <= j < k ==> inputs[j].name != name
  {
    if inputs != [] {
      FirstValueIsFirstEntry(inputs[1..], name);
      if inputs[0].name == name {
        assert inputs[0].value == FirstValue(inputs, name).value;
      } else {
        assert forall k :: 1 <= k < |inputs| ==> inputs[k] == inputs[1..][k - 1];
        if FirstValue(inputs, name).Some? {
          var k :| && 0 <= k < |inputs[1..]| && inputs[1..][k].name == name
                   && inputs[1..][k].value == FirstValue(inputs[1..], name).value
                   && forall j :: 0 <= j < k ==> inputs[1..][j].name != name;
          assert inputs[k + 1] == inputs[1..][k];
          assert forall j :: 1 <= j < k + 1 ==> inputs[j].name != name by {
            forall j | 1 <= j < k + 1 ensures inputs[j].name != name {
              assert inputs[j] == inputs[1..][j - 1];
            }
          }
        }
      }
    }
  }

  /** The two totals a stats dictionary holds, under its own labels. */
  datatype Totals = Totals(totalSpend: real, totalEmissions: real)

  /** The payback period in years, or the "no savings" sentinel. */
  datatype Payback = Years(years: real) | NoSavings

  datatype Stats = Stats(base: Totals, modified: Totals, payback: Payback)

  /** The yearly saving the payback divides by: the drop in total emissions. */
  function AnnualSavings(df: ImpactFrame): (r: real)
    ensures df.emissionsModified == df.data.emissions ==> r == 0.0
    ensures r > 0.0 <==> Sum(df.emissionsModified) < Sum(df.data.emissions)
  {
    Sum(df.data.emissions) - Sum(df.emissionsModified)
  }

  /** GBP 300 per panel plus GBP 200 for LED lighting. */
  function CapitalCost(nPanels: ModValue, ledLighting: ModValue): (r: int)
    ensures nPanels.Count? && ledLighting.Flag? ==>
              r == CostPerPanel * nPanels.n + (if ledLighting.b then CostOfLed else 0)
  {
    CostPerPanel * AsInt(nPanels) + CostOfLed * AsInt(ledLighting)
  }

  /** `cost / annual_savings if annual_savings else "no savings"`. */
  function PaybackOf(cost: int, annualSavings: real): (r: Payback)
    ensures r.NoSavings? <==> annualSavings == 0.0
    ensures r.Years? ==> r.years * annualSavings == cost as real
  {
    if annualSavings != 0.0 then Years(cost as real / annualSavings) else NoSavings
  }

  /** `get_stats`: the totals of the original and modified frame, and the
      payback period of the first solar and LED selections. The solar lookup
      comes first, so when both are missing the solar one fails. */
  function GetStats(inputs: seq<Modifier>, df: ImpactFrame): (r: Result<Stats, DisplayError>)
    ensures r.Err? <==> FirstValue(inputs, "solar_panels").None? || FirstValue(inputs, "led_lighting").None?
    ensures r.Err? ==> r.error == IndexError(if FirstValue(inputs, "solar_panels").None? then "solar_panels" else "led_lighting")
    ensures r.Ok? ==> (r.value.payback.NoSavings? <==> AnnualSavings(df) == 0.0)
    ensures r.Ok? && r.value.payback.Years? ==>
              r.value.payback.years * AnnualSavings(df)
              == CapitalCost(FirstValue(inputs, "solar_panels").value, FirstValue(inputs, "led_lighting").value) as real
  {
    // The dictionary labels are kept as the source writes them: "Total
    // Spend" holds the emissions sum and "Total Emissions" the spend sum.
    var baseStats := Totals(totalSpend := Sum(df.data.emissions), totalEmissions := Sum(df.data.spend));
    var modStats := Totals(totalSpend := Sum(df.emissionsModified), totalEmissions := Sum(df.spendModified));
    match FirstValue(inputs, "solar_panels")
    case None => Err(IndexError("solar_panels"))
    case Some(nPanels) =>
      match FirstValue(inputs, "led_lighting")
      case None => Err(IndexError("led_lighting"))
      case Some(ledLighting) =>
        var cost := CapitalCost(nPanels, ledLighting);
        Ok(Stats(baseStats, modStats, PaybackOf(cost, AnnualSavings(df))))
  }

  /** The stats labels are crossed: "Total Spend" is the emissions total and
      "Total Emissions" the spend total, for both the original and the
      modified columns. */
  lemma StatsLabelsSwapped(inputs: seq<Modifier>, df: ImpactFrame)
    requires GetStats(inputs, df).Ok?
    ensures GetStats(inputs, df).value.base.totalSpend == Sum(df.data.emissions)
    ensures GetStats(inputs, df).value.base.totalEmissions == Sum(df.data.spend)
    ensures GetStats(inputs, df).value.modified.totalSpend == Sum(df.emissionsModified)
    ensures GetStats(inputs, df).value.modified.totalEmissions == Sum(df.spendModified)
  {
  }

  /** The payback depends on the emissions columns only: frames that differ
      in anything else give the same payback. */
  lemma PaybackIgnoresSpend(inputs: seq<Modifier>, df: ImpactFrame, other: ImpactFrame)
    requires other.data.emissions == df.data.emissions
    requires other.emissionsModified == df.emissionsModified
    ensures GetStats(inputs, df).Ok? <==> GetStats(inputs, other).Ok?
    ensures GetStats(inputs, df).Ok? ==> GetStats(inputs, df).value.payback == GetStats(inputs, other).value.payback
  {
  }

  /** A frame whose modified emissions are its consumption at the emissions
      factor, like its baseline emissions, shows no annual savings. */
  lemma {:induction false} EmissionsMatchNoSavings(df: ImpactFrame)
    requires |df.data.consumption| == |df.data.emissions|
    requires forall m :: 0 <= m < |df.data.emissions| ==> df.data.emissions[m] == df.data.consumption[m] * ElecEmissions
    requires df.emissionsModified == ApplyElecConsumptionReduction(df.data.consumption, ElecEmissions)
    ensures AnnualSavings(df) == 0.0
  {
    SumPointwise(df.data.emissions, df.emissionsModified);
  }

  /** When the baseline emissions are consumption at the emissions factor,
      neutral selections (no panels, LED off) save nothing, so the payback
      is the "no savings" sentinel. */
  lemma NeutralNoSavings(inputs: seq<Modifier>, dataRaw: Baseline)
    requires |dataRaw.consumption| == NPeriods
    requires |dataRaw.emissions| == NPeriods
    requires forall m :: 0 <= m < NPeriods ==> dataRaw.emissions[m] == dataRaw.consumption[m] * ElecEmissions
    requires forall k :: 0 <= k < |inputs| ==> Neutral(inputs[k])
    requires FirstValue(inputs, "solar_panels").Some? && FirstValue(inputs, "led_lighting").Some?
    ensures ImpactOf(inputs, dataRaw).Ok?
    ensures GetStats(inputs, ImpactOf(inputs, dataRaw).value).Ok?
    ensures GetStats(inputs, ImpactOf(inputs, dataRaw).value).value.payback == NoSavings
  {
    ImpactIdentity(inputs, dataRaw);
    EmissionsMatchNoSavings(ImpactOf(inputs, dataRaw).value);
  }
}
