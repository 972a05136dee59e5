/** The policy simulator (src/utils/policySimulator.js): the five
    pollution-control policies, the accumulation of their effects over the
    chosen ids with diminishing returns, and the summary record.
    `Math.pow(0.8, x)` is the parameter `pow`, known only to be positive
    and at most 1 for x >= 0. */
module PolicySimulator {
  import opened Common

  datatype Policy = Policy(id: string, name: string, description: string, reduction: int,
                           annualCost: int, livesSaved: int, economicBenefit: int,
                           publicTransportLoad: int, sourceImpact: string)

  /** POLICIES, in their declared order. */
  const Policies: seq<Policy> := [
    Policy("odd-even", "Odd-Even Vehicle Scheme",
           "Restrict private vehicle usage based on license plate numbers.",
           75, 120, 1200, 450, 45, "Vehicular Emissions"),
    Policy("cracker-ban", "Complete Firecracker Ban",
           "Total ban on firecracker manufacturing, sale, and use.",
           60, 25, 150, -80, 0, "Others"),
    Policy("construction-ban", "Construction Activity Halt",
           "Suspension of all major construction projects during peak pollution.",
           50, 0, 850, -400, 0, "Construction Dust"),
    Policy("industrial-scrubbing", "Advanced Industrial Scrubbing",
           "Mandatory installation of high-efficiency particulate scrubbers.",
           40, 1200, 1800, 2500, 0, "Industrial Emissions"),
    Policy("public-transport", "Mass Transit Expansion",
           "50% increase in electric bus frequency and metro lines.",
           45, 850, 950, 1200, -25, "Vehicular Emissions")
  ]

  /** Every policy promises a positive reduction and positive lives saved. */
  lemma PoliciesPositive()
    ensures forall k :: 0 <= k < |Policies| ==> Policies[k].reduction > 0 && Policies[k].livesSaved > 0
  {
  }

  /** `POLICIES.find(p => p.id === id)`: the ids are distinct, so this is
      the entry carrying that id, if any. */
  function FindPolicy(id: string): (p: Option<Policy>)
    ensures p.Some? ==> p.value in Policies && p.value.id == id
    ensures p.Some? ==> p.value.reduction > 0 && p.value.livesSaved > 0
    ensures p.None? <==> forall k :: 0 <= k < |Policies| ==> Policies[k].id != id
  {
    PoliciesPositive();
    if id == "odd-even" then Some(Policies[0])
    else if id == "cracker-ban" then Some(Policies[1])
    else if id == "construction-ban" then Some(Policies[2])
    else if id == "industrial-scrubbing" then Some(Policies[3])
    else if id == "public-transport" then Some(Policies[4])
    else None
  }

  /** What Math.pow(0.8, x) is relied on for: positive everywhere, and
      at most 1 for x >= 0. */
  ghost predicate Decaying(pow: real -> real) {
    forall x: real :: 0.0 < pow(x) && (0.0 <= x ==> pow(x) <= 1.0)
  }

  /** The four accumulators of simulatePolicy. */
  datatype Totals = Totals(reduction: real, cost: int, livesSaved: real, economicBenefit: int)

  const NoTotals := Totals(0.0, 0, 0.0, 0)

  /** The synergy multiplier 0.8^(reduction so far / 50) * compliance / 100. */
  function Synergy(reductionSoFar: real, compliance: real, pow: real -> real): real {
    pow(reductionSoFar / 50.0) * (compliance / 100.0)
  }

  /** A policy figure scaled by the synergy multiplier. */
  function Weighted(amount: int, multiplier: real): real {
    amount as real * multiplier
  }

  /** One pass of the forEach, given what the id looks up: an unknown id leaves the totals alone; a
      known one adds its reduction and lives saved scaled by
      0.8^(reduction so far / 50) * compliance / 100, and its cost and
      benefit in full. */
  function Step(t: Totals, policy: Option<Policy>, compliance: real, pow: real -> real): Totals {
    match policy
    case None => t
    case Some(p) =>
      var multiplier := Synergy(t.reduction, compliance, pow);
      Totals(t.reduction + Weighted(p.reduction, multiplier), t.cost + p.annualCost,
             t.livesSaved + Weighted(p.livesSaved, multiplier), t.economicBenefit + p.economicBenefit)
  }

  /** The totals after the forEach has visited every id, in order. */
  function Accumulate(ids: seq<string>, compliance: real, pow: real -> real): Totals
    decreases |ids|
  {
    if ids == [] then NoTotals
    else Step(Accumulate(ids[..|ids| - 1], compliance, pow), FindPolicy(ids[|ids| - 1]), compliance, pow)
  }

  // ----- properties of the accumulation -----

  predicate Known(id: string) {
    FindPolicy(id).Some?
  }

  function KnownOnly(ids: seq<string>): (r: seq<string>)
    ensures forall k :: 0 <= k < |r| ==> Known(r[k])
    ensures |r| <= |ids|
  {
    if ids == [] then []
    else if Known(ids[|ids| - 1]) then KnownOnly(ids[..|ids| - 1]) + [ids[|ids| - 1]]
    else KnownOnly(ids[..|ids| - 1])
  }

  /** Ids that name no policy change nothing: the totals are those of the
      recognised ids alone. */
  lemma {:induction false} UnknownIdsIgnored(ids: seq<string>, compliance: real, pow: real -> real)
    ensures Accumulate(ids, compliance, pow) == Accumulate(KnownOnly(ids), compliance, pow)
    decreases |ids|
  {
    if ids != [] {
      var init := ids[..|ids| - 1];
      var last := ids[|ids| - 1];
      UnknownIdsIgnored(init, compliance, pow);
      if Known(last) {
        var k := KnownOnly(init) + [last];
        assert k[..|k| - 1] == KnownOnly(init);
      }
    }
  }

  function CostOf(id: string): int {
    if FindPolicy(id).Some? then FindPolicy(id).value.annualCost else 0
  }

  function BenefitOf(id: string): int {
    if FindPolicy(id).Some? then FindPolicy(id).value.economicBenefit else 0
  }

  function NominalOf(id: string): int {
    if FindPolicy(id).Some? then FindPolicy(id).value.reduction else 0
  }

  function CostSum(ids: seq<string>): int
    decreases |ids|
  {
    if ids == [] then 0
    else CostSum(ids[..|ids| - 1]) + CostOf(ids[|ids| - 1])
  }

  function BenefitSum(ids: seq<string>): int
    decreases |ids|
  {
    if ids == [] then 0
    else BenefitSum(ids[..|ids| - 1]) + BenefitOf(ids[|ids| - 1])
  }

  /** The cost and benefit totals are the plain sums over the recognised
      ids, whatever the compliance and the decay. */
  lemma {:induction false} CostAndBenefitArePlainSums(ids: seq<string>, compliance: real, pow: real -> real)
    ensures Accumulate(ids, compliance, pow).cost == CostSum(ids)
    ensures Accumulate(ids, compliance, pow).economicBenefit == BenefitSum(ids)
    decreases |ids|
  {
    if ids != [] {
      CostAndBenefitArePlainSums(ids[..|ids| - 1], compliance, pow);
    }
  }

  /** The scale factor of a step, 0.8^x * compliance / 100, is not
      negative, and at most 1 when x >= 0 and compliance <= 100. */
  lemma ScaleBounds(d: real, compliance: real)
    requires 0.0 < d && 0.0 <= compliance
    ensures 0.0 <= d * (compliance / 100.0)
    ensures d <= 1.0 && compliance <= 100.0 ==> d * (compliance / 100.0) <= 1.0
  {
    var c := compliance / 100.0;
    MulMonotone(0.0, d, c);
    assert 0.0 * c == 0.0;
    if d <= 1.0 && compliance <= 100.0 {
      MulMonotone(0.0, 1.0 - d, c);
      assert (1.0 - d) * c == c - d * c;
      assert d * c <= c <= 1.0;
    }
  }

  /** With non-negative compliance each step only adds to the reduction,
      and adds at most the policy's full reduction when compliance is at
      most 100 and the reduction so far is not negative. */
  lemma StepReduction(t: Totals, policy: Option<Policy>, compliance: real, pow: real -> real)
    requires Decaying(pow) && 0.0 <= compliance
    requires policy.Some? ==> policy.value.reduction > 0
    ensures t.reduction <= Step(t, policy, compliance, pow).reduction
    ensures compliance <= 100.0 && 0.0 <= t.reduction ==>
      Step(t, policy, compliance, pow).reduction <=
        t.reduction + (if policy.Some? then policy.value.reduction as real else 0.0)
  {
    if policy.Some? {
      var d := pow(t.reduction / 50.0);
      var m := Synergy(t.reduction, compliance, pow);
      var r := policy.value.reduction as real;
      ScaleBounds(d, compliance);
      MulMonotone(0.0, r, m);
      if compliance <= 100.0 && 0.0 <= t.reduction {
        MulMonotone(m, 1.0, r);
      }
    }
  }

  /** With non-negative compliance the reduction is never negative. */
  lemma {:induction false} ReductionNonNegative(ids: seq<string>, compliance: real, pow: real -> real)
    requires Decaying(pow) && 0.0 <= compliance
    ensures 0.0 <= Accumulate(ids, compliance, pow).reduction
    decreases |ids|
  {
    if ids != [] {
      ReductionNonNegative(ids[..|ids| - 1], compliance, pow);
      StepReduction(Accumulate(ids[..|ids| - 1], compliance, pow), FindPolicy(ids[|ids| - 1]), compliance, pow);
    }
  }

  /** With non-negative compliance the reduction never shrinks as the
      forEach proceeds: each prefix's reduction is at most a longer one's. */
  lemma {:induction false} ReductionGrows(ids: seq<string>, i: nat, j: nat, compliance: real, pow: real -> real)
    requires Decaying(pow) && 0.0 <= compliance
    requires i <= j <= |ids|
    ensures Accumulate(ids[..i], compliance, pow).reduction <= Accumulate(ids[..j], compliance, pow).reduction
    decreases j
  {
    if i < j {
      ReductionGrows(ids, i, j - 1, compliance, pow);
      assert ids[..j][..j - 1] == ids[..j - 1];
      StepReduction(Accumulate(ids[..j - 1], compliance, pow), FindPolicy(ids[j - 1]), compliance, pow);
    }
  }

  function ReductionSum(ids: seq<string>): int
    decreases |ids|
  {
    if ids == [] then 0
    else ReductionSum(ids[..|ids| - 1]) + NominalOf(ids[|ids| - 1])
  }

  /** With compliance in [0, 100] the combined reduction is at most the sum
      of the recognised policies' nominal reductions. */
  lemma {:induction false} ReductionAtMostNominal(ids: seq<string>, compliance: real, pow: real -> real)
    requires Decaying(pow) && 0.0 <= compliance <= 100.0
    ensures Accumulate(ids, compliance, pow).reduction <= ReductionSum(ids) as real
    decreases |ids|
  {
    if ids != [] {
      var init := ids[..|ids| - 1];
      ReductionAtMostNominal(init, compliance, pow);
      ReductionNonNegative(init, compliance, pow);
      StepReduction(Accumulate(init, compliance, pow), FindPolicy(ids[|ids| - 1]), compliance, pow);
    }
  }

  // ----- the summary -----

  datatype Simulation = Simulation(initialAqi: real, finalAqi: int, reduction: int, totalCost: int,
                                   totalLivesSaved: int, totalEconomicBenefit: int,
                                   roiTenths: int, recommendationScore: int)

  /** `roi.toFixed(1)` as a count of tenths: halves round away from zero. */
  function TenthsOf(x: real): int {
    if 0.0 <= x then JsRound(x * 10.0) else -JsRound(-x * 10.0)
  }

  /** The return on investment in percent: 0 when nothing is spent. */
  function Roi(t: Totals): (roi: real)
    ensures t.cost <= 0 ==> roi == 0.0
  {
    if t.cost > 0 then (t.economicBenefit - t.cost) as real / t.cost as real * 100.0 else 0.0
  }

  /** The forEach of simulatePolicy: four accumulators updated in place
      for each recognised id. */
  method AccumulateTotals(activePolicyIds: seq<string>, compliance: real, pow: real -> real)
    returns (t: Totals)
    ensures t == Accumulate(activePolicyIds, compliance, pow)
  {
    var totalReduction := 0.0;
    var totalCost := 0;
    var totalLivesSaved := 0.0;
    var totalEconomicBenefit := 0;
    for i := 0 to |activePolicyIds|
      invariant Totals(totalReduction, totalCost, totalLivesSaved, totalEconomicBenefit) ==
                Accumulate(activePolicyIds[..i], compliance, pow)
    {
      ghost var before := Totals(totalReduction, totalCost, totalLivesSaved, totalEconomicBenefit);
      var policy := FindPolicy(activePolicyIds[i]);
      if policy.Some? {
        var multiplier := Synergy(totalReduction, compliance, pow);
        totalReduction := totalReduction + Weighted(policy.value.reduction, multiplier);
        totalCost := totalCost + policy.value.annualCost;
        totalLivesSaved := totalLivesSaved + Weighted(policy.value.livesSaved, multiplier);
        totalEconomicBenefit := totalEconomicBenefit + policy.value.economicBenefit;
        assert Totals(totalReduction, totalCost, totalLivesSaved, totalEconomicBenefit) ==
               Step(before, policy, compliance, pow);
      }
      AccumulateNext(activePolicyIds, i, compliance, pow);
    }
    assert activePolicyIds[..|activePolicyIds|] == activePolicyIds;
    t := Totals(totalReduction, totalCost, totalLivesSaved, totalEconomicBenefit);
  }

  /** One more pass of the forEach is one more Step. */
  lemma AccumulateNext(ids: seq<string>, i: nat, compliance: real, pow: real -> real)
    requires i < |ids|
    ensures Accumulate(ids[..i + 1], compliance, pow) ==
            Step(Accumulate(ids[..i], compliance, pow), FindPolicy(ids[i]), compliance, pow)
  {
    assert ids[..i + 1][..i] == ids[..i];
  }

  /** simulatePolicy: the accumulated totals turned into the summary.
      Compliance defaults to 100. */
  method SimulatePolicy(activePolicyIds: seq<string>, currentAqi: real, compliance: Option<real>,
                        pow: real -> real)
    returns (result: Simulation)
    ensures var c := if compliance.Some? then compliance.value else 100.0;
      var t := Accumulate(activePolicyIds, c, pow);
      var unrounded := Max(25.0, currentAqi - t.reduction);
      result.initialAqi == currentAqi &&
      result.finalAqi == JsRound(unrounded) &&
      result.reduction == JsRound(currentAqi - unrounded) &&
      result.totalCost == t.cost && result.totalEconomicBenefit == t.economicBenefit &&
      result.totalLivesSaved == JsRound(t.livesSaved) &&
      result.roiTenths == TenthsOf(Roi(t)) &&
      result.recommendationScore == IntMin(100, JsRound(t.livesSaved / 10.0 + Roi(t) / 5.0))
    ensures 25 <= result.finalAqi && result.recommendationScore <= 100
  {
    var c := if compliance.Some? then compliance.value else 100.0;
    var t := AccumulateTotals(activePolicyIds, c, pow);
    var finalAqi := Max(25.0, currentAqi - t.reduction);
    var roi := Roi(t);
    JsRoundMonotone(25.0, finalAqi);
    JsRoundOfInt(25);
    result := Simulation(currentAqi, JsRound(finalAqi), JsRound(currentAqi - finalAqi), t.cost,
                         JsRound(t.livesSaved), t.economicBenefit, TenthsOf(roi),
                         IntMin(100, JsRound(t.livesSaved / 10.0 + roi / 5.0)));
  }

  /** With no recognised policy the AQI is only floored at 25: the final
      AQI is round(max(25, currentAQI)) and nothing is spent. */
  lemma NoPoliciesOnlyFloors(ids: seq<string>, compliance: real, pow: real -> real)
    requires forall k :: 0 <= k < |ids| ==> !Known(ids[k])
    ensures Accumulate(ids, compliance, pow) == NoTotals
  {
    UnknownIdsIgnored(ids, compliance, pow);
    assert KnownOnly(ids) == [] by {
      if KnownOnly(ids) != [] {
        KnownOnlyFromIds(ids, 0);
      }
    }
  }

  lemma {:induction false} KnownOnlyFromIds(ids: seq<string>, k: nat)
    requires k < |KnownOnly(ids)|
    ensures KnownOnly(ids)[k] in ids
    decreases |ids|
  {
    var init := ids[..|ids| - 1];
    var last := ids[|ids| - 1];
    if Known(last) && k == |KnownOnly(init)| {
    } else {
      KnownOnlyFromIds(init, k);
    }
  }

  /** From an AQI of at least 25, the reported reduction is the rounded
      gap between the starting AQI and the floored result: not negative,
      and at most the rounded combined reduction. */
  lemma ReductionReported(t: Totals, currentAqi: real)
    requires 0.0 <= t.reduction && 25.0 <= currentAqi
    ensures 0 <= JsRound(currentAqi - Max(25.0, currentAqi - t.reduction)) <= JsRound(t.reduction)
  {
    var gap := currentAqi - Max(25.0, currentAqi - t.reduction);
    assert 0.0 <= gap <= t.reduction;
    JsRoundMonotone(0.0, gap);
    JsRoundMonotone(gap, t.reduction);
    JsRoundOfInt(0);
  }

  /** Below the floor the simulation raises the AQI: from 10 with no
      policy the final AQI is 25 and the reported reduction is -15. */
  lemma BelowFloorReportsNegativeReduction(pow: real -> real)
    ensures var t := Accumulate([], 100.0, pow);
      var unrounded := Max(25.0, 10.0 - t.reduction);
      JsRound(unrounded) == 25 && JsRound(10.0 - unrounded) == -15
  {
    JsRoundOfInt(25);
    JsRoundOfInt(-15);
  }

  /** calculateLivesSaved: 0.8 lives per AQI point, doubled. */
  function LivesSaved(aqiReduction: real): (lives: int)
    ensures aqiReduction * 1.6 - 0.5 < lives as real <= aqiReduction * 1.6 + 0.5
  {
    JsRound(aqiReduction * 0.8 * 2.0)
  }

  /** A larger reduction never saves fewer lives. */
  lemma LivesSavedMonotone(x: real, y: real)
    requires x <= y
    ensures LivesSaved(x) <= LivesSaved(y)
  {
    JsRoundMonotone(x * 0.8 * 2.0, y * 0.8 * 2.0);
  }
}
