/** The second `OptimizationAgent` of agents/optimization_agent.py, which
    shadows the first at import: it recommends the vendor with the lowest
    composite of cost, performance and risk, and flags it when its cost is
    over budget. */
module Recommendation {
  import opened Common
  import opened Model

  /** `f"{vendor}_total_cost"`. */
  function CostKey(vendor: string): string {
    vendor + "_total_cost"
  }

  /** `cost - performance * 1000 + risk * 500` for one vendor key; the three
      dict lookups raise KeyError in this order. */
  function Composite(costs: map<string, real>, performance: map<string, real>, risk: map<string, int>, vendor: string): (r: Result<real>)
    ensures r.Success? <==> CostKey(vendor) in costs && vendor in performance && vendor in risk
    ensures CostKey(vendor) !in costs ==> r == Failure(KeyError(CostKey(vendor)))
    ensures CostKey(vendor) in costs && vendor !in performance ==> r == Failure(KeyError(vendor))
    ensures CostKey(vendor) in costs && vendor in performance && vendor !in risk ==> r == Failure(KeyError(vendor))
    ensures r.Success? ==>
      r.value == costs[CostKey(vendor)] - performance[vendor] * 1000.0 + risk[vendor] as real * 500.0
  {
    var cost :- if CostKey(vendor) in costs then Success(costs[CostKey(vendor)]) else Failure(KeyError(CostKey(vendor)));
    var perf :- if vendor in performance then Success(performance[vendor]) else Failure(KeyError(vendor));
    var rk :- if vendor in risk then Success(risk[vendor]) else Failure(KeyError(vendor));
    Success(cost - perf * 1000.0 + rk as real * 500.0)
  }

  /** The running best of the loop: a vendor and its composite score. */
  datatype Candidate = Candidate(vendor: string, score: real)

  /** The best candidate among `vendors`, scanning left to right and replacing
      the candidate only on a strictly smaller score, so the first minimal
      vendor wins; None for no vendors (the score starts at infinity). */
  function Best(vendors: seq<string>, costs: map<string, real>, performance: map<string, real>, risk: map<string, int>): Result<Option<Candidate>>
    decreases |vendors|
  {
    if vendors == [] then Success(None)
    else
      var init := vendors[..|vendors| - 1];
      var last := vendors[|vendors| - 1];
      var previous :- Best(init, costs, performance, risk);
      var score :- Composite(costs, performance, risk, last);
      if previous.None? || score < previous.value.score then
        Success(Some(Candidate(last, score)))
      else
        Success(previous)
  }

  /** The scan succeeds exactly when every vendor has all three scores; it
      then yields a vendor of minimal composite, None only for no vendors, and
      no vendor before the chosen one ties with it. */
  lemma {:induction false} BestIsFirstMinimum(vendors: seq<string>, costs: map<string, real>, performance: map<string, real>, risk: map<string, int>)
    ensures var r := Best(vendors, costs, performance, risk);
      && (r.Success? <==> forall v :: v in vendors ==> Composite(costs, performance, risk, v).Success?)
      && (r.Success? ==> (r.value.None? <==> vendors == []))
      && (r.Success? && r.value.Some? ==>
            exists i :: 0 <= i < |vendors| && vendors[i] == r.value.value.vendor
              && (forall j :: 0 <= j < i ==> Composite(costs, performance, risk, vendors[j]).value > r.value.value.score))
      && (r.Success? && r.value.Some? ==>
            && r.value.value.score == Composite(costs, performance, risk, r.value.value.vendor).value
            && forall v :: v in vendors ==> r.value.value.score <= Composite(costs, performance, risk, v).value)
  {
    BestSucceeds(vendors, costs, performance, risk);
    BestMinimal(vendors, costs, performance, risk);
    BestFirst(vendors, costs, performance, risk);
  }

  /** The scan fails exactly when some vendor lacks a score, and finds no
      candidate only for no vendors. */
  lemma {:induction false} BestSucceeds(vendors: seq<string>, costs: map<string, real>, performance: map<string, real>, risk: map<string, int>)
    ensures var r := Best(vendors, costs, performance, risk);
      && (r.Success? <==> forall v :: v in vendors ==> Composite(costs, performance, risk, v).Success?)
      && (r.Success? ==> (r.value.None? <==> vendors == []))
    decreases |vendors|
  {
    if vendors != [] {
      var init := vendors[..|vendors| - 1];
      var last := vendors[|vendors| - 1];
      assert vendors == init + [last];
      BestSucceeds(init, costs, performance, risk);
    }
  }

  /** The candidate is a listed vendor, carries its own composite, and no
      vendor scores less. */
  lemma {:induction false} BestMinimal(vendors: seq<string>, costs: map<string, real>, performance: map<string, real>, risk: map<string, int>)
    ensures var r := Best(vendors, costs, performance, risk);
      r.Success? && r.value.Some? ==>
        && r.value.value.vendor in vendors
        && Composite(costs, performance, risk, r.value.value.vendor) == Success(r.value.value.score)
        && forall v :: v in vendors ==>
             Composite(costs, performance, risk, v).Success? && r.value.value.score <= Composite(costs, performance, risk, v).value
    decreases |vendors|
  {
    if vendors != [] {
      var init := vendors[..|vendors| - 1];
      var last := vendors[|vendors| - 1];
      assert vendors == init + [last];
      BestMinimal(init, costs, performance, risk);
      BestSucceeds(init, costs, performance, risk);
    }
  }

  /** Every vendor before the candidate scores strictly more. */
  lemma {:induction false} BestFirst(vendors: seq<string>, costs: map<string, real>, performance: map<string, real>, risk: map<string, int>)
    ensures var r := Best(vendors, costs, performance, risk);
      r.Success? && r.value.Some? ==>
        exists i :: 0 <= i < |vendors| && vendors[i] == r.value.value.vendor
          && (forall j :: 0 <= j < i ==>
                Composite(costs, performance, risk, vendors[j]).Success?
                && Composite(costs, performance, risk, vendors[j]).value > r.value.value.score)
    decreases |vendors|
  {
    if vendors != [] {
      var init := vendors[..|vendors| - 1];
      var last := vendors[|vendors| - 1];
      assert vendors == init + [last];
      var previous := Best(init, costs, performance, risk);
      var c := Composite(costs, performance, risk, last);
      if previous.Success? && c.Success? {
        var p := previous.value;
        if p.None? || c.value < p.value.score {
          // The last vendor becomes the candidate: every earlier one scores more.
          BestMinimal(init, costs, performance, risk);
          BestSucceeds(init, costs, performance, risk);
          var i := |vendors| - 1;
          assert vendors[i] == last;
          forall j | 0 <= j < i
            ensures Composite(costs, performance, risk, vendors[j]).value > c.value
          {
            assert vendors[j] == init[j] && init[j] in init;
          }
        } else {
          // The candidate is kept; its index in `init` is its index in `vendors`.
          BestFirst(init, costs, performance, risk);
          var i :| 0 <= i < |init| && init[i] == p.value.vendor
            && (forall j :: 0 <= j < i ==>
                  Composite(costs, performance, risk, init[j]).Success?
                  && Composite(costs, performance, risk, init[j]).value > p.value.score);
          assert vendors[i] == init[i];
          assert forall j :: 0 <= j < i ==> vendors[j] == init[j];
        }
      }
    }
  }

  /** A failure within the first `n` vendors is the failure of the whole
      scan. */
  lemma {:induction false} BestFailsAt(vendors: seq<string>, n: nat, costs: map<string, real>, performance: map<string, real>, risk: map<string, int>)
    requires 0 < n <= |vendors|
    requires Best(vendors[..n], costs, performance, risk).Failure?
    ensures Best(vendors, costs, performance, risk) == Best(vendors[..n], costs, performance, risk)
    decreases |vendors|
  {
    if n < |vendors| {
      var init := vendors[..|vendors| - 1];
      assert init[..n] == vendors[..n];
      BestFailsAt(init, n, costs, performance, risk);
    } else {
      assert vendors[..n] == vendors;
    }
  }

  /** One more vendor: the scan of `vendors[..i + 1]` continues the scan of
      `vendors[..i]` with `vendors[i]`. */
  lemma {:induction false} BestStep(vendors: seq<string>, i: nat, costs: map<string, real>, performance: map<string, real>, risk: map<string, int>)
    requires i < |vendors|
    requires Best(vendors[..i], costs, performance, risk).Success?
    ensures var previous := Best(vendors[..i], costs, performance, risk).value;
      var c := Composite(costs, performance, risk, vendors[i]);
      && (c.Failure? ==> Best(vendors[..i + 1], costs, performance, risk) == Failure(c.error))
      && (c.Success? ==>
            Best(vendors[..i + 1], costs, performance, risk) ==
            Success(if previous.None? || c.value < previous.value.score then Some(Candidate(vendors[i], c.value)) else previous))
  {
    var s := vendors[..i + 1];
    assert s[..|s| - 1] == vendors[..i] && s[|s| - 1] == vendors[i];
  }

  /** `recommended_vendor`, `reason` and `optimization_needed`. */
  datatype Advice = Advice(recommendedVendor: Option<string>, reason: string, optimizationNeeded: bool)

  /** The specification of `recommend`: after the scan, the chosen vendor's
      cost is looked up again (under "None_total_cost" when nothing was chosen)
      and compared with the budget. */
  function RecommendSpec(pkg: PackageValue, costs: map<string, real>, performance: map<string, real>, risk: map<string, int>): Result<Advice> {
    var best :- Best(VendorKeys(pkg.design.selectedModels), costs, performance, risk);
    var vendor := if best.Some? then Some(best.value.vendor) else None;
    var key := CostKey(if best.Some? then best.value.vendor else "None");
    var selectedCost :- if key in costs then Success(costs[key]) else Failure(KeyError(key));
    if selectedCost > pkg.profile.budget then
      Success(Advice(vendor, "Exceeds budget. Optimization required.", true))
    else
      Success(Advice(vendor, "Best cost-performance-risk balance within budget.", false))
  }

  /** `recommend(infra_package, cost_results, performance_scores, risk_scores)`:
      the loop over the vendor keys of `selected_models`. */
  method Recommend(pkg: PackageValue, costs: map<string, real>, performance: map<string, real>, risk: map<string, int>)
    returns (r: Result<Advice>)
    ensures r == RecommendSpec(pkg, costs, performance, risk)
  {
    var budget := pkg.profile.budget;
    var vendors := VendorKeys(pkg.design.selectedModels);
    var bestVendor: Option<string> := None;
    var bestScore: Option<real> := None;  // None stands for infinity
    var i := 0;
    while i < |vendors|
      invariant 0 <= i <= |vendors|
      invariant Best(vendors[..i], costs, performance, risk).Success?
      invariant var b := Best(vendors[..i], costs, performance, risk).value;
        && (b.None? ==> bestVendor.None? && bestScore.None?)
        && (b.Some? ==> bestVendor == Some(b.value.vendor) && bestScore == Some(b.value.score))
    {
      var vendor := vendors[i];
      BestStep(vendors, i, costs, performance, risk);
      var c := Composite(costs, performance, risk, vendor);
      if c.Failure? {
        BestFailsAt(vendors, i + 1, costs, performance, risk);
        return Failure(c.error);
      }
      var composite := c.value;
      if bestScore.None? || composite < bestScore.value {
        bestScore := Some(composite);
        bestVendor := Some(vendor);
      }
      i := i + 1;
    }
    assert vendors[..i] == vendors;
    var key := CostKey(if bestVendor.Some? then bestVendor.value else "None");
    if key !in costs {
      return Failure(KeyError(key));
    }
    var selectedCost := costs[key];
    if selectedCost > budget {
      return Success(Advice(bestVendor, "Exceeds budget. Optimization required.", true));
    }
    return Success(Advice(bestVendor, "Best cost-performance-risk balance within budget.", false));
  }

  /** Optimisation is flagged exactly when the chosen vendor costs strictly
      more than the budget. */
  lemma {:induction false} NeededIffOverBudget(pkg: PackageValue, costs: map<string, real>, performance: map<string, real>, risk: map<string, int>)
    requires RecommendSpec(pkg, costs, performance, risk).Success?
    requires RecommendSpec(pkg, costs, performance, risk).value.recommendedVendor.Some?
    ensures var a := RecommendSpec(pkg, costs, performance, risk).value;
      && CostKey(a.recommendedVendor.value) in costs
      && (a.optimizationNeeded <==> costs[CostKey(a.recommendedVendor.value)] > pkg.profile.budget)
  {
    BestIsFirstMinimum(VendorKeys(pkg.design.selectedModels), costs, performance, risk);
  }

  /** With no vendor keys nothing is chosen, and the lookup of
      "None_total_cost" raises unless the cost dict happens to hold that key. */
  lemma {:induction false} NoVendorsLooksUpNone(pkg: PackageValue, costs: map<string, real>, performance: map<string, real>, risk: map<string, int>)
    requires pkg.design.selectedModels == []
    ensures CostKey("None") !in costs ==>
      RecommendSpec(pkg, costs, performance, risk) == Failure(KeyError("None_total_cost"))
    ensures CostKey("None") in costs ==>
      RecommendSpec(pkg, costs, performance, risk).Success? &&
      RecommendSpec(pkg, costs, performance, risk).value.recommendedVendor.None?
  {
    assert VendorKeys(pkg.design.selectedModels) == [];
    assert CostKey("None") == "None_total_cost";
  }

  /** The recommended vendor is a key of `selected_models` whose composite is
      minimal, and no earlier key ties with it. */
  lemma {:induction false} RecommendsFirstMinimum(pkg: PackageValue, costs: map<string, real>, performance: map<string, real>, risk: map<string, int>)
    requires RecommendSpec(pkg, costs, performance, risk).Success?
    requires pkg.design.selectedModels != []
    ensures var a := RecommendSpec(pkg, costs, performance, risk).value;
      var keys := VendorKeys(pkg.design.selectedModels);
      && a.recommendedVendor.Some?
      && a.recommendedVendor.value in keys
      && Composite(costs, performance, risk, a.recommendedVendor.value).Success?
      && (forall v :: v in keys ==>
            && Composite(costs, performance, risk, v).Success?
            && Composite(costs, performance, risk, a.recommendedVendor.value).value <= Composite(costs, performance, risk, v).value)
      && exists i :: 0 <= i < |keys| && keys[i] == a.recommendedVendor.value &&
           forall j :: 0 <= j < i ==>
             && Composite(costs, performance, risk, keys[j]).Success?
             && Composite(costs, performance, risk, keys[j]).value > Composite(costs, performance, risk, keys[i]).value
  {
    BestIsFirstMinimum(VendorKeys(pkg.design.selectedModels), costs, performance, risk);
  }
}
