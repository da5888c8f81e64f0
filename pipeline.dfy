/** Phases 1 and 3 to 5 of `run_full_pipeline` in agents/system_pipeline.py:
    the business profile, the initial analysis, the snapshot of the package,
    the budget decision, at most one in-place downgrade followed by a second
    analysis, and the deployment estimate on the final outputs.

    The cost, performance and security scorers are parameters: the pipeline
    calls them through names that do not match their definitions, so only
    their results (or the exception they raise) matter here. */
module Pipeline {
  import opened Common
  import opened Catalog
  import opened Model
  import opened Costing
  import opened Optimization
  import opened Deployment

  // ---------------------------------------------------------------------------
  // Phase 1
  // ---------------------------------------------------------------------------

  /** The user's input: the six profile fields and whatever else the form
      sends. */
  datatype UserInput = UserInput(
    numEmployees: int,
    officeSizeSqft: int,
    securityLevel: string,
    growthRatePercent: real,
    cloudPreference: string,
    budget: real,
    otherFields: map<string, string>)

  /** The business profile copies exactly the six fields. */
  function BusinessProfile(input: UserInput): (p: CompanyProfile)
    ensures p.numEmployees == input.numEmployees && p.officeSizeSqft == input.officeSizeSqft
    ensures p.securityLevel == input.securityLevel && p.growthRatePercent == input.growthRatePercent
    ensures p.cloudPreference == input.cloudPreference && p.budget == input.budget
  {
    CompanyProfile(input.numEmployees, input.officeSizeSqft, input.securityLevel,
      input.growthRatePercent, input.cloudPreference, input.budget)
  }

  /** No other input field reaches the profile. */
  lemma ProfileIgnoresOtherFields(input: UserInput, other: map<string, string>)
    ensures BusinessProfile(input.(otherFields := other)) == BusinessProfile(input)
  {
  }

  // ---------------------------------------------------------------------------
  // Phases 3 to 5
  // ---------------------------------------------------------------------------

  /** `{cost_analysis, performance_scores, security_scores}`. */
  datatype Analysis<P, S> = Analysis(costAnalysis: CostComparison, performanceScores: P, securityScores: S)

  /** The part of the returned dict that these phases determine. */
  datatype PipelineOutput<P, S> = PipelineOutput(
    infra: PackageValue,
    cost: CostComparison,
    performance: P,
    security: S,
    deployment: DeploymentEstimate,
    initialDesign: PackageValue,
    initialAnalysis: Analysis<P, S>,
    optimizedAnalysis: Analysis<P, S>,
    decision: Decision)

  /** The three scorers, cost first; the first exception propagates. */
  function Analyze<P, S>(v: PackageValue, costOf: PackageValue -> Result<CostComparison>,
                         performanceOf: PackageValue -> Result<P>, securityOf: PackageValue -> Result<S>): Result<Analysis<P, S>>
  {
    var cost :- costOf(v);
    var performance :- performanceOf(v);
    var security :- securityOf(v);
    Success(Analysis(cost, performance, security))
  }

  /** The package after the phases: downgraded once when the decision asks for
      it (also when a later step raises), untouched otherwise. */
  function FinalPackage<P, S>(loader: CatalogLoader, v: PackageValue, costOf: PackageValue -> Result<CostComparison>,
                              performanceOf: PackageValue -> Result<P>, securityOf: PackageValue -> Result<S>): PackageValue
  {
    match Analyze(v, costOf, performanceOf, securityOf)
    case Failure(_) => v
    case Success(initial) =>
      if Evaluate(v.profile.budget, initial.costAnalysis).optimizationNeeded then
        v.(design := ModifiedDesign(loader, v.design).design)
      else v
  }

  /** The specification of the phases. */
  function PipelineSpec<P, S>(loader: CatalogLoader, v: PackageValue, costOf: PackageValue -> Result<CostComparison>,
                              performanceOf: PackageValue -> Result<P>, securityOf: PackageValue -> Result<S>): Result<PipelineOutput<P, S>>
  {
    var initial :- Analyze(v, costOf, performanceOf, securityOf);
    var decision := Evaluate(v.profile.budget, initial.costAnalysis);
    var final := FinalPackage(loader, v, costOf, performanceOf, securityOf);
    var optimized :-
      if !decision.optimizationNeeded then Success(initial)
      else if ModifiedDesign(loader, v.design).error.Some? then Failure(ModifiedDesign(loader, v.design).error.value)
      else Analyze(final, costOf, performanceOf, securityOf);
    Success(PipelineOutput(final, optimized.costAnalysis, optimized.performanceScores, optimized.securityScores,
      Estimate(final, optimized.costAnalysis), v, initial, optimized, decision))
  }

  /** Phases 3 to 5 on the package object, which the downgrade changes in
      place. */
  method RunAnalysisPhases<P, S>(loader: CatalogLoader, pkg: InfraPackage, costOf: PackageValue -> Result<CostComparison>,
                                 performanceOf: PackageValue -> Result<P>, securityOf: PackageValue -> Result<S>)
    returns (r: Result<PipelineOutput<P, S>>)
    modifies pkg
    ensures r == PipelineSpec(loader, old(pkg.Value()), costOf, performanceOf, securityOf)
    ensures pkg.Value() == FinalPackage(loader, old(pkg.Value()), costOf, performanceOf, securityOf)
  {
    ghost var v := pkg.Value();
    // Phase 3: initial analysis
    var costOutput :- costOf(pkg.Value());
    var performanceOutput :- performanceOf(pkg.Value());
    var securityOutput :- securityOf(pkg.Value());
    var initialAnalysis := Analysis(costOutput, performanceOutput, securityOutput);
    var initialDesign := pkg.Value();
    assert Analyze(v, costOf, performanceOf, securityOf) == Success(initialAnalysis);

    // Phase 4: optimisation
    var decision := Evaluate(pkg.profile.budget, initialAnalysis.costAnalysis);
    if decision.optimizationNeeded {
      var error := ModifyDesign(loader, pkg);
      assert pkg.Value() == FinalPackage(loader, v, costOf, performanceOf, securityOf);
      if error.Some? {
        return Failure(error.value);
      }
      costOutput :- costOf(pkg.Value());
      performanceOutput :- performanceOf(pkg.Value());
      securityOutput :- securityOf(pkg.Value());
      assert Analyze(pkg.Value(), costOf, performanceOf, securityOf)
        == Success(Analysis(costOutput, performanceOutput, securityOutput));
    } else {
      assert pkg.Value() == FinalPackage(loader, v, costOf, performanceOf, securityOf);
    }
    var optimizedAnalysis := Analysis(costOutput, performanceOutput, securityOutput);

    // Phase 5: deployment estimate
    var deploymentOutput := Estimate(pkg.Value(), costOutput);
    return Success(PipelineOutput(pkg.Value(), costOutput, performanceOutput, securityOutput,
      deploymentOutput, initialDesign, initialAnalysis, optimizedAnalysis, decision));
  }

  /** When no optimisation is needed nothing changes: the optimised analysis
      is the initial one and the package is the input. */
  lemma NoOptimizationKeepsAnalysis<P, S>(loader: CatalogLoader, v: PackageValue, costOf: PackageValue -> Result<CostComparison>,
                                          performanceOf: PackageValue -> Result<P>, securityOf: PackageValue -> Result<S>)
    requires PipelineSpec(loader, v, costOf, performanceOf, securityOf).Success?
    requires !PipelineSpec(loader, v, costOf, performanceOf, securityOf).value.decision.optimizationNeeded
    ensures var o := PipelineSpec(loader, v, costOf, performanceOf, securityOf).value;
      o.optimizedAnalysis == o.initialAnalysis && o.infra == v
  {
  }

  /** The returned decision is the one taken on the initial costs, and the
      snapshot is the package as it was before the downgrade. */
  lemma DecisionAndSnapshotArePreModification<P, S>(loader: CatalogLoader, v: PackageValue, costOf: PackageValue -> Result<CostComparison>,
                                                    performanceOf: PackageValue -> Result<P>, securityOf: PackageValue -> Result<S>)
    requires PipelineSpec(loader, v, costOf, performanceOf, securityOf).Success?
    ensures var o := PipelineSpec(loader, v, costOf, performanceOf, securityOf).value;
      && o.initialDesign == v
      && o.initialAnalysis == Analyze(v, costOf, performanceOf, securityOf).value
      && o.decision == Evaluate(v.profile.budget, costOf(v).value)
  {
  }

  /** The design is downgraded at most once: the final design is the input
      design or a single modification of it, never a second one. */
  lemma {:induction false} AtMostOneModification<P, S>(loader: CatalogLoader, v: PackageValue, costOf: PackageValue -> Result<CostComparison>,
                                                       performanceOf: PackageValue -> Result<P>, securityOf: PackageValue -> Result<S>)
    ensures var f := FinalPackage(loader, v, costOf, performanceOf, securityOf);
      && f.profile == v.profile && f.scalability == v.scalability
      && (f.design == v.design || f.design == ModifiedDesign(loader, v.design).design)
      && (f.design != v.design ==>
            (Analyze(v, costOf, performanceOf, securityOf).Success? && costOf(v).value.ciscoTotalCost > v.profile.budget))
  {
    match Analyze(v, costOf, performanceOf, securityOf)
    case Failure(_) =>
    case Success(initial) =>
      assert initial.costAnalysis == costOf(v).value;
  }

  /** The reported outputs and the deployment estimate come from the final
      package: after a downgrade they are the second analysis of it. */
  lemma {:induction false} OutputsArePostModification<P, S>(loader: CatalogLoader, v: PackageValue, costOf: PackageValue -> Result<CostComparison>,
                                                            performanceOf: PackageValue -> Result<P>, securityOf: PackageValue -> Result<S>)
    requires PipelineSpec(loader, v, costOf, performanceOf, securityOf).Success?
    ensures var o := PipelineSpec(loader, v, costOf, performanceOf, securityOf).value;
      && o.infra == FinalPackage(loader, v, costOf, performanceOf, securityOf)
      && o.optimizedAnalysis == Analyze(o.infra, costOf, performanceOf, securityOf).value
      && o.cost == o.optimizedAnalysis.costAnalysis
      && o.performance == o.optimizedAnalysis.performanceScores
      && o.security == o.optimizedAnalysis.securityScores
      && o.deployment == Estimate(o.infra, o.cost)
  {
  }
}
