/** Modifiers, their monthly consumption multipliers, and the application of
    the combined multiplier to a baseline frame (utils/inputs.py). */
module Inputs {
  import opened Series

  const NPeriods: nat := 12

  // Savings data
  const LightingSaving: real := 0.05
  const SavingPerSolarPanel: real := 0.1

  // Tariff and emissions factor
  const ElecPrice: real := 0.25       // GBP per kWh
  const ElecEmissions: real := 0.3    // kg CO2e per kWh

  /** The value a widget supplied: a panel count or a toggle. */
  datatype ModValue = Count(n: int) | Flag(b: bool)

  /** One user selection; the name is free text, so unknown names can occur. */
  datatype Modifier = Modifier(name: string, value: ModValue)

  /** Python's `int(v)`; also what `v * 0.1` and `300 * v` see (True is 1). */
  function AsInt(v: ModValue): int
  {
    match v
    case Count(n) => n
    case Flag(b) => if b then 1 else 0
  }

  /** Python truthiness of the value, as used by `x if v else y`. */
  predicate Truthy(v: ModValue)
  {
    match v
    case Count(n) => n != 0
    case Flag(b) => b
  }

  /** The identity multiplier `[1] * N_PERIODS`. */
  function Ones(): seq<real>
  {
    Repeat(1.0, NPeriods)
  }

  /** The monthly baseline frame read from the CSV: month names and the three
      metric columns elec_consumption_kwh, elec_spend_gbp and
      elec_emissions_kg_co2e. Spend and emissions are data, not derived here. */
  datatype Baseline = Baseline(months: seq<string>, consumption: seq<real>, spend: seq<real>, emissions: seq<real>)
  {
    /** Every column of a data frame has one entry per row. */
    predicate Rectangular()
    {
      |consumption| == |months| && |spend| == |months| && |emissions| == |months|
    }
  }

  /** The copied frame with the three columns that the impact calculation adds:
      elec_consumption_modified, elec_spend_modified_gbp and
      elec_emissions_modified_kg_co2e. */
  datatype ImpactFrame = ImpactFrame(data: Baseline, consumptionModified: seq<real>, spendModified: seq<real>, emissionsModified: seq<real>)
  {
    predicate Rectangular()
    {
      && data.Rectangular()
      && |consumptionModified| == |data.months|
      && |spendModified| == |data.months|
      && |emissionsModified| == |data.months|
    }
  }

  /** pandas refuses to multiply a column by a list of another length. */
  datatype ImpactError = LengthMismatch(rows: nat, multipliers: nat)

  /** `apply_elec_consumption_reduction`: every value scaled by the factor. The
      same element-wise product is what pandas computes for a column times a
      scalar, so the spend and emissions columns use it too. */
  function ApplyElecConsumptionReduction(values: seq<real>, reductionPct: real): (r: seq<real>)
    ensures |r| == |values|
    ensures forall i :: 0 <= i < |values| ==> r[i] == values[i] * reductionPct
  {
    if values == [] then [] else [values[0] * reductionPct] + ApplyElecConsumptionReduction(values[1..], reductionPct)
  }

  /** Uniform solar model: every month keeps `1 - n * 0.1` of its consumption.
      Nothing clamps the factor. */
  function SolarPanels(nPanels: int): (r: seq<real>)
    ensures |r| == NPeriods
    ensures forall m :: 0 <= m < NPeriods ==> r[m] == 1.0 - nPanels as real / 10.0
    ensures nPanels == 0 ==> r == Ones()
    ensures nPanels > 10 ==> forall m :: 0 <= m < NPeriods ==> r[m] < 0.0
    ensures nPanels < 0 ==> forall m :: 0 <= m < NPeriods ==> r[m] > 1.0
  {
    var savingAllPanels := nPanels as real * SavingPerSolarPanel;
    Repeat(1.0 - savingAllPanels, NPeriods)
  }

  /** LED lighting keeps 95% of every month's consumption when on. */
  function LedLighting(ledLighting: bool): (r: seq<real>)
    ensures |r| == NPeriods
    ensures ledLighting ==> forall m :: 0 <= m < NPeriods ==> r[m] == 0.95
    ensures !ledLighting ==> r == Ones()
  {
    var savings := if ledLighting then LightingSaving else 0.0;
    Repeat(1.0 - savings, NPeriods)
  }

  /** The names the dispatch in `calculate_impact_of_modifiers` recognises. */
  predicate Recognized(name: string)
  {
    name == "solar_panels" || name == "led_lighting"
  }

  /** The multiplier one modifier contributes; None for an unknown name. */
  function MultiplierOf(modifier: Modifier): (r: Option<seq<real>>)
    ensures r.Some? <==> Recognized(modifier.name)
    ensures r.Some? ==> |r.value| == NPeriods
  {
    if modifier.name == "solar_panels" then Some(SolarPanels(AsInt(modifier.value)))
    else if modifier.name == "led_lighting" then Some(LedLighting(Truthy(modifier.value)))
    else None
  }

  /** The list of multipliers collected from the selections, in order. */
  function Multipliers(modifiers: seq<Modifier>): (r: seq<seq<real>>)
    ensures |r| <= |modifiers|
    ensures forall k :: 0 <= k < |r| ==> |r[k]| == NPeriods
  {
    if modifiers == [] then []
    else
      match MultiplierOf(modifiers[0])
      case None => Multipliers(modifiers[1..])
      case Some(m) => [m] + Multipliers(modifiers[1..])
  }

  lemma {:induction false} MultipliersConcat(a: seq<Modifier>, b: seq<Modifier>)
    ensures Multipliers(a + b) == Multipliers(a) + Multipliers(b)
  {
    if a != [] {
      assert (a + b)[0] == a[0];
      assert (a + b)[1..] == a[1..] + b;
      MultipliersConcat(a[1..], b);
    } else {
      assert a + b == b;
    }
  }

  /** `combine_multipliers` as a specification: the accumulator after the
      last list has been zipped in. */
  function Combine(multipliers: seq<seq<real>>): seq<real>
    decreases |multipliers|
  {
    if multipliers == [] then Ones()
    else
      var n := |multipliers|;
      ZipMul(Combine(multipliers[..n - 1]), multipliers[n - 1])
  }

  /** Because zip stops at the shorter list, the combined multiplier is as
      long as the shortest of the twelve-month start and all the inputs. */
  lemma {:induction false} CombineLength(multipliers: seq<seq<real>>)
    ensures |Combine(multipliers)| <= NPeriods
    ensures forall k :: 0 <= k < |multipliers| ==> |Combine(multipliers)| <= |multipliers[k]|
    ensures |Combine(multipliers)| == NPeriods
            || exists k :: 0 <= k < |multipliers| && |Combine(multipliers)| == |multipliers[k]|
    decreases |multipliers|
  {
    if multipliers != [] {
      var n := |multipliers|;
      var init := multipliers[..n - 1];
      CombineLength(init);
      assert forall k :: 0 <= k < n - 1 ==> init[k] == multipliers[k];
      if |Combine(multipliers)| != NPeriods && |Combine(multipliers)| != |multipliers[n - 1]| {
        var k :| 0 <= k < n - 1 && |Combine(init)| == |init[k]|;
        assert |Combine(multipliers)| == |multipliers[k]|;
      }
    }
  }

  /** No input gives the all-ones identity. */
  lemma CombineEmpty()
    ensures Combine([]) == Ones()
    ensures forall m :: 0 <= m < NPeriods ==> Combine([])[m] == 1.0
  {
  }

  /** `combine_multipliers`: start from all ones and zip each list in. */
  method CombineMultipliers(multipliers: seq<seq<real>>) returns (combined: seq<real>)
    ensures combined == Combine(multipliers)
  {
    combined := Ones();
    var i := 0;
    while i < |multipliers|
      invariant 0 <= i <= |multipliers|
      invariant combined == Combine(multipliers[..i])
    {
      assert multipliers[..i + 1][..i] == multipliers[..i];
      combined := ZipMul(combined, multipliers[i]);
      i := i + 1;
    }
    assert multipliers[..i] == multipliers;
  }

  /** The three column assignments: consumption times the combined
      multiplier (a length mismatch is an error in pandas), then spend and
      emissions at the fixed tariff and emissions factor. */
  function ApplyMultiplier(dataRaw: Baseline, finalMultipliers: seq<real>): (r: Result<ImpactFrame, ImpactError>)
    ensures r.Ok? <==> |dataRaw.consumption| == |finalMultipliers|
    ensures r.Err? ==> r.error == LengthMismatch(|dataRaw.consumption|, |finalMultipliers|)
    ensures r.Ok? ==> && r.value.data == dataRaw
                      && |r.value.consumptionModified| == |finalMultipliers|
                      && |r.value.spendModified| == |finalMultipliers|
                      && |r.value.emissionsModified| == |finalMultipliers|
  {
    if |dataRaw.consumption| != |finalMultipliers| then
      Err(LengthMismatch(|dataRaw.consumption|, |finalMultipliers|))
    else
      var consumptionModified := ZipMul(dataRaw.consumption, finalMultipliers);
      Ok(ImpactFrame(dataRaw, consumptionModified,
                     ApplyElecConsumptionReduction(consumptionModified, ElecPrice),
                     ApplyElecConsumptionReduction(consumptionModified, ElecEmissions)))
  }

  /** `calculate_impact_of_modifiers` as a specification. */
  function ImpactOf(modifiers: seq<Modifier>, dataRaw: Baseline): Result<ImpactFrame, ImpactError>
  {
    ApplyMultiplier(dataRaw, Combine(Multipliers(modifiers)))
  }

  /** Every combined multiplier built from recognised modifiers is 12 long. */
  lemma CombinedMultipliersLength(modifiers: seq<Modifier>)
    ensures |Combine(Multipliers(modifiers))| == NPeriods
  {
    CombineLength(Multipliers(modifiers));
  }

  /** `calculate_impact_of_modifiers`: collect one multiplier per recognised
      modifier, combine them, and add the three modified columns to a copy of
      the frame. */
  method CalculateImpactOfModifiers(modifiers: seq<Modifier>, dataRaw: Baseline) returns (r: Result<ImpactFrame, ImpactError>)
    ensures r == ImpactOf(modifiers, dataRaw)
    ensures r.Ok? <==> |dataRaw.consumption| == NPeriods
    ensures r.Ok? ==> r.value.data == dataRaw
  {
    var multipliers: seq<seq<real>> := [];
    var i := 0;
    while i < |modifiers|
      invariant 0 <= i <= |modifiers|
      invariant multipliers == Multipliers(modifiers[..i])
    {
      var modifier := modifiers[i];
      if modifier.name == "solar_panels" {
        multipliers := multipliers + [SolarPanels(AsInt(modifier.value))];
      } else if modifier.name == "led_lighting" {
        multipliers := multipliers + [LedLighting(Truthy(modifier.value))];
      }
      assert modifiers[..i + 1] == modifiers[..i] + [modifier];
      MultipliersConcat(modifiers[..i], [modifier]);
      i := i + 1;
    }
    assert modifiers[..i] == modifiers;

    var finalMultipliers := CombineMultipliers(multipliers);
    CombinedMultipliersLength(modifiers);
    if |dataRaw.consumption| != |finalMultipliers| {
      r := Err(LengthMismatch(|dataRaw.consumption|, |finalMultipliers|));
    } else {
      var consumptionModified := ZipMul(dataRaw.consumption, finalMultipliers);
      var spendModified := ApplyElecConsumptionReduction(consumptionModified, ElecPrice);
      var emissionsModified := ApplyElecConsumptionReduction(consumptionModified, ElecEmissions);
      r := Ok(ImpactFrame(dataRaw, consumptionModified, spendModified, emissionsModified));
    }
  }
}
