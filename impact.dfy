/** What `calculate_impact_of_modifiers` computes: the modified columns month
    by month, the modifiers that cannot affect them, and the order that does
    not matter. */
module Impact {
  import opened Series
  import opened Inputs
  import opened Composition

  /** The fraction of consumption one selection keeps in every month: the
      uniform solar factor, the LED factor, or 1 for a name the dispatch
      does not know. */
  function Factor(modifier: Modifier): real
  {
    if modifier.name == "solar_panels" then 1.0 - AsInt(modifier.value) as real * 0.1
    else if modifier.name == "led_lighting" then (if Truthy(modifier.value) then 0.95 else 1.0)
    else 1.0
  }

  /** The product of the factors of all selections. */
  function FactorProduct(modifiers: seq<Modifier>): real
  {
    if modifiers == [] then 1.0 else Factor(modifiers[0]) * FactorProduct(modifiers[1..])
  }

  /** The selections whose names the dispatch knows, in order. */
  function Known(modifiers: seq<Modifier>): seq<Modifier>
  {
    if modifiers == [] then []
    else if Recognized(modifiers[0].name) then [modifiers[0]] + Known(modifiers[1..])
    else Known(modifiers[1..])
  }

  /** A selection that leaves consumption as it is: no panels, LED off, or a
      name the dispatch does not know. */
  predicate Neutral(modifier: Modifier)
  {
    match modifier.name
    case "solar_panels" => AsInt(modifier.value) == 0
    case "led_lighting" => !Truthy(modifier.value)
    case _ => true
  }

  lemma {:induction false} ProductOfMultipliers(modifiers: seq<Modifier>, m: nat)
    requires m < NPeriods
    ensures ProductAt(Multipliers(modifiers), m) == FactorProduct(modifiers)
  {
    if modifiers != [] {
      ProductOfMultipliers(modifiers[1..], m);
    }
  }

  /** Every month of the combined multiplier equals the product of the
      selections' factors. */
  lemma CombinedFactor(modifiers: seq<Modifier>)
    ensures |Combine(Multipliers(modifiers))| == NPeriods
    ensures forall m :: 0 <= m < NPeriods ==> Combine(Multipliers(modifiers))[m] == FactorProduct(modifiers)
  {
    CombineElementwise(Multipliers(modifiers));
    forall m | 0 <= m < NPeriods
      ensures Combine(Multipliers(modifiers))[m] == FactorProduct(modifiers)
    {
      ProductOfMultipliers(modifiers, m);
    }
  }

  /** The shape of the impact frame: it exists exactly when the frame has
      twelve rows (otherwise pandas reports the length mismatch), it keeps
      every original column, and each added column has twelve months. */
  lemma ImpactShape(modifiers: seq<Modifier>, dataRaw: Baseline)
    ensures ImpactOf(modifiers, dataRaw).Ok? <==> |dataRaw.consumption| == NPeriods
    ensures ImpactOf(modifiers, dataRaw).Err? ==>
              ImpactOf(modifiers, dataRaw).error == LengthMismatch(|dataRaw.consumption|, NPeriods)
    ensures ImpactOf(modifiers, dataRaw).Ok? ==>
              var f := ImpactOf(modifiers, dataRaw).value;
              && f.data == dataRaw
              && |f.consumptionModified| == NPeriods
              && |f.spendModified| == NPeriods
              && |f.emissionsModified| == NPeriods
              && (dataRaw.Rectangular() ==> f.Rectangular())
  {
    CombinedMultipliersLength(modifiers);
  }

  /** Month m of the three added columns when the combined multiplier is
      the same factor in every month. */
  lemma {:induction false} UniformColumnsAt(dataRaw: Baseline, factor: real, m: nat)
    requires |dataRaw.consumption| == NPeriods
    requires m < NPeriods
    ensures ApplyMultiplier(dataRaw, Repeat(factor, NPeriods)).Ok?
    ensures var f := ApplyMultiplier(dataRaw, Repeat(factor, NPeriods)).value;
            && m < |f.consumptionModified| && m < |f.spendModified| && m < |f.emissionsModified|
            && f.consumptionModified[m] == dataRaw.consumption[m] * factor
            && f.spendModified[m] == f.consumptionModified[m] * ElecPrice
            && f.emissionsModified[m] == f.consumptionModified[m] * ElecEmissions
  {
    var c := Repeat(factor, NPeriods);
    var z := ZipMul(dataRaw.consumption, c);
    var f := ApplyMultiplier(dataRaw, c).value;
    assert f.consumptionModified == z;
    assert z[m] == dataRaw.consumption[m] * c[m];
  }

  /** The combined multiplier is the product of the factors, repeated for
      every month. */
  lemma ImpactOfUniform(modifiers: seq<Modifier>, dataRaw: Baseline)
    ensures ImpactOf(modifiers, dataRaw) == ApplyMultiplier(dataRaw, Repeat(FactorProduct(modifiers), NPeriods))
  {
    CombinedFactor(modifiers);
    assert Combine(Multipliers(modifiers)) == Repeat(FactorProduct(modifiers), NPeriods);
  }

  /** Scaling a column scales its sum. */
  lemma {:induction false} ReductionSum(values: seq<real>, reductionPct: real)
    ensures Sum(ApplyElecConsumptionReduction(values, reductionPct)) == reductionPct * Sum(values)
  {
    if values != [] {
      ReductionSum(values[1..], reductionPct);
    }
  }

  lemma {:induction false} MultipliersPermutation(a: seq<Modifier>, b: seq<Modifier>)
    requires multiset(a) == multiset(b)
    ensures multiset(Multipliers(a)) == multiset(Multipliers(b))
    decreases |a|
  {
    if a == [] {
      assert |b| == |multiset(b)| == 0;
    } else {
      var first := a[0];
      assert a == [first] + a[1..];
      assert first in multiset(b);
      var i :| 0 <= i < |b| && b[i] == first;
      var rest := b[..i] + b[i + 1..];
      assert b == b[..i] + ([first] + b[i + 1..]);
      assert multiset(b) == multiset(rest) + multiset{first};
      calc {
        multiset(a[1..]);
        multiset(a) - multiset{first};
        multiset(b) - multiset{first};
        multiset(rest);
      }
      MultipliersPermutation(a[1..], rest);
      MultipliersConcat([first], a[1..]);
      MultipliersConcat(b[..i], [first] + b[i + 1..]);
      MultipliersConcat([first], b[i + 1..]);
      MultipliersConcat(b[..i], b[i + 1..]);
    }
  }

  /** Listing the same selections in another order gives the same frame. */
  lemma ImpactPermutation(a: seq<Modifier>, b: seq<Modifier>, dataRaw: Baseline)
    requires multiset(a) == multiset(b)
    ensures ImpactOf(a, dataRaw) == ImpactOf(b, dataRaw)
  {
    MultipliersPermutation(a, b);
    CombinePermutation(Multipliers(a), Multipliers(b));
  }

  /** A selection with an unknown name, wherever it stands, changes nothing. */
  lemma ImpactSkipsUnknown(before: seq<Modifier>, unknown: Modifier, after: seq<Modifier>, dataRaw: Baseline)
    requires !Recognized(unknown.name)
    ensures ImpactOf(before + [unknown] + after, dataRaw) == ImpactOf(before + after, dataRaw)
  {
    assert Multipliers([unknown]) == [] by {
      assert [unknown][1..] == [];
    }
    MultipliersConcat(before + [unknown], after);
    MultipliersConcat(before, [unknown]);
    MultipliersConcat(before, after);
    assert Multipliers(before + [unknown]) == Multipliers(before);
  }

  lemma {:induction false} KnownMultipliers(modifiers: seq<Modifier>)
    ensures Multipliers(Known(modifiers)) == Multipliers(modifiers)
  {
    if modifiers != [] {
      KnownMultipliers(modifiers[1..]);
      if Recognized(modifiers[0].name) {
        MultipliersConcat([modifiers[0]], Known(modifiers[1..]));
        assert [modifiers[0]][1..] == [];
      }
    }
  }

  /** Dropping every selection with an unknown name gives the same frame. */
  lemma ImpactKnownOnly(modifiers: seq<Modifier>, dataRaw: Baseline)
    ensures ImpactOf(Known(modifiers), dataRaw) == ImpactOf(modifiers, dataRaw)
  {
    KnownMultipliers(modifiers);
  }

  lemma {:induction false} NeutralFactorProduct(modifiers: seq<Modifier>)
    requires forall k :: 0 <= k < |modifiers| ==> Neutral(modifiers[k])
    ensures FactorProduct(modifiers) == 1.0
  {
    if modifiers != [] {
      assert Neutral(modifiers[0]);
      NeutralFactorProduct(modifiers[1..]);
    }
  }

  /** Applying the all-ones multiplier keeps consumption as it is. */
  lemma {:induction false} ApplyOnes(dataRaw: Baseline)
    requires |dataRaw.consumption| == NPeriods
    ensures ApplyMultiplier(dataRaw, Ones()).Ok?
    ensures ApplyMultiplier(dataRaw, Ones()).value.consumptionModified == dataRaw.consumption
  {
    var z := ZipMul(dataRaw.consumption, Ones());
    assert |z| == |dataRaw.consumption|;
    forall m | 0 <= m < |z| ensures z[m] == dataRaw.consumption[m] {
      assert z[m] == dataRaw.consumption[m] * Ones()[m];
    }
  }

  /** When every selection is neutral the modified consumption is the
      baseline consumption, and the modified spend and emissions are that
      consumption at the fixed tariff and emissions factor. */
  lemma ImpactIdentity(modifiers: seq<Modifier>, dataRaw: Baseline)
    requires |dataRaw.consumption| == NPeriods
    requires forall k :: 0 <= k < |modifiers| ==> Neutral(modifiers[k])
    ensures ImpactOf(modifiers, dataRaw).Ok?
    ensures ImpactOf(modifiers, dataRaw).value.consumptionModified == dataRaw.consumption
    ensures ImpactOf(modifiers, dataRaw).value.spendModified == ApplyElecConsumptionReduction(dataRaw.consumption, ElecPrice)
    ensures ImpactOf(modifiers, dataRaw).value.emissionsModified == ApplyElecConsumptionReduction(dataRaw.consumption, ElecEmissions)
  {
    ImpactOfUniform(modifiers, dataRaw);
    NeutralFactorProduct(modifiers);
    ApplyOnes(dataRaw);
  }

  /** No selections, and zero panels with LED off, both leave consumption as
      it is. */
  lemma NoSelectionNoChange(dataRaw: Baseline)
    requires |dataRaw.consumption| == NPeriods
    ensures ImpactOf([], dataRaw).Ok?
    ensures ImpactOf([], dataRaw).value.consumptionModified == dataRaw.consumption
    ensures ImpactOf([Modifier("solar_panels", Count(0)), Modifier("led_lighting", Flag(false))], dataRaw).Ok?
    ensures ImpactOf([Modifier("solar_panels", Count(0)), Modifier("led_lighting", Flag(false))], dataRaw).value.consumptionModified
            == dataRaw.consumption
  {
    ImpactIdentity([], dataRaw);
    var neutral := [Modifier("solar_panels", Count(0)), Modifier("led_lighting", Flag(false))];
    assert Neutral(neutral[0]) && Neutral(neutral[1]);
    ImpactIdentity(neutral, dataRaw);
  }
}
