# Network procurement calculator: a verified model of its decision logic

This project models, in Dafny, the deterministic core of a calculator that
sizes an office network from a company profile and then prices and compares
it for two vendors, Cisco and TP-Link. It covers:

- the catalog accessor and its filters (`CatalogLoader`);
- the validator that turns untrusted model names into catalog members;
- the device-count formulas and the assembly of the infrastructure design;
- the two cost scorers, the performance scorer and the risk scorer;
- the deployment estimate;
- both `OptimizationAgent` classes of `agents/optimization_agent.py`. The
  first holds the budget check, the topology and router step-downs and the
  in-place `modify_design`; the second holds the composite-score
  recommender. The second definition shadows the first when the module is
  imported, so they are two modules here, `Optimization` and
  `Recommendation`;
- phases 1 and 3 to 5 of the pipeline: initial analysis, snapshot, budget
  decision, at most one downgrade, re-scoring and the deployment estimate;
- the brace-balancing JSON substring scanner;
- the defaulting input transform of the cost-analysis agent.

Conventions:

- A Python exception is a `Failure` of `Common.Result`. Its `PyError` names
  the exception and its payload (`UnsupportedVendor`, `KeyError(key)`,
  `VendorNotSelected(key, available)`, `StopIteration`, ...).
- Floats are exact `real`s, catalog prices included, and `round(x, 2)`
  rounds the exact value half to even.
- The `selected_models` dict is an ordered list of `(key, selection)` entries.
  Python dicts keep insertion order, and two operations iterate over it.
- The infrastructure package is the one object that is changed in place, so
  it is the class `Model.InfraPackage`. Every scorer reads a snapshot of it
  (`Value()`), which is also what `copy.deepcopy` yields.
- Methods that accumulate a value step by step (both `calculate_vendor_cost`
  variants, `evaluate_vendor`, `calculate_risk`, `recommend`, `extract_json`
  and the pipeline) are imperative methods. Each is proved equal to a
  specification function, and the lemmas state their properties.

## Model

| member | source | states |
|---|---|---|
| Common.NormalizeVendor | agents/costing_agent.py:14-18 | the lookup key is the lower-cased name with every '-' and ' ' removed: an in-order subsequence of it, holding every other character exactly as often |
| Common.NormalizeCisco | agents/costing_agent.py:14-18 | "Cisco" normalises to the key "cisco" that the design writes |
| Common.NormalizeTpLink | agents/performance_agent.py:16 | "TP-Link" normalises to the key "tplink" that the design writes |
| Numeric.CeilDiv | agents/architecture_agent.py:19-21 | `math.ceil(a / b)` is the least q with q·b ≥ a |
| Numeric.Round2 | agents/costing_agent.py:57 | `round(x, 2)` is a whole number of cents within 0.005 of x, a tie goes to the even number of cents, and a non-negative value stays non-negative |
| Numeric.Round2Monotone | agents/costing_agent.py:137-139 | rounding to cents never reverses an order |
| Numeric.Round2OfWhole | agents/performance_agent.py:54-56 | rounding leaves a whole number unchanged |
| Model.LookupVendor | agents/performance_agent.py:17 | `selected_models[key]` succeeds exactly when the key is present, returns that key's entry, and raises KeyError(key) otherwise |
| Model.SetRouterModel | agents/optimization_agent.py:61-70 | writing one key's router name keeps the keys, leaves every other field and key untouched, and the key now maps to the new name |
| Model.InfraPackage.constructor | agents/system_pipeline.py:48-58 | the package object holds exactly the given profile, design and projection |
| Catalog.GetVendorCatalog | utils/catalog_loader.py:19-25 | "cisco" and "tp-link" in any case give their catalog; any other name raises ValueError("Unsupported vendor") |
| Catalog.TplinkIsNotAVendorName | utils/catalog_loader.py:19-25 | the `selected_models` key "tplink" is rejected as a vendor name |
| Catalog.Filter | utils/catalog_loader.py:39-43 | a comprehension keeps exactly the elements meeting its test, with their multiplicities, in order |
| Catalog.FilterRouters | utils/catalog_loader.py:37-43 | exactly the routers with enough users and area, each as often as in the catalog, as an order-preserving subsequence; raises for an unknown vendor |
| Catalog.FilterSwitches | utils/catalog_loader.py:45-50 | exactly the switches with enough `max_devices_supported`, each as often as in the catalog, nothing else tested |
| Catalog.FilterAccessPoints | utils/catalog_loader.py:52-58 | exactly the access points with enough users and area, each as often as in the catalog, in order |
| Catalog.FilterFirewalls | utils/catalog_loader.py:60-65 | exactly the firewalls with enough `max_users_supported`, each as often as in the catalog, nothing else tested |
| Catalog.FilterByBudget | utils/catalog_loader.py:71-75 | exactly the devices priced at most the cap, each as often as in the catalog, in order |
| Catalog.NoMatchIsEmpty | utils/catalog_loader.py:37-43 | when no router qualifies the result is the empty list, not an error |
| Catalog.MoreUsersNeverAdds | utils/catalog_loader.py:37-65 | raising the user threshold yields a subsequence of the earlier router, access point and firewall results |
| Catalog.LargerBudgetNeverRemoves | utils/catalog_loader.py:71-75 | raising the price cap yields a supersequence |
| Catalog.SummarizeVendor | utils/catalog_loader.py:81-88 | the summary holds the lengths of the four category lists; raises for an unknown vendor |
| Catalog.FiltersWithinSummary | utils/catalog_loader.py:37-88 | no filter returns more devices than the summary counts for its category |
| Catalog.FindModel | agents/costing_agent.py:34 | `next(...)` returns the first catalog device with the requested name, and raises StopIteration exactly when no device has it |
| SelectionValidator.HighestCapacityIndex | utils/selection_validator.py:6-7 | `max` picks a maximal element, and the first one among equals |
| SelectionValidator.GetHighestCapacity | utils/selection_validator.py:6-7 | the model name of that element, in the list; ValueError exactly for an empty list |
| SelectionValidator.ValidateField | utils/selection_validator.py:16-22 | a missing key raises; a catalog name is kept; any other name becomes the highest-capacity model |
| SelectionValidator.AsMap | utils/selection_validator.py:13-49 | the returned dict has exactly the four keys router, switch, access point and firewall model, each mapped to its validated name |
| SelectionValidator.ValidateVendorSelection | utils/selection_validator.py:9-51 | on success every output name is in its category of the vendor's catalog |
| SelectionValidator.ValidationFailsExactly | utils/selection_validator.py:7-49 | validation raises exactly for an unknown vendor, a missing input key, or an invalid name in an empty category |
| SelectionValidator.ValidatedFields | utils/selection_validator.py:17-49 | valid names are kept; invalid ones become the first maximal entry by users (router, access point, firewall) or by devices (switch) |
| SelectionValidator.ValidationIdempotent | utils/selection_validator.py:17-49 | validating a validated selection returns it unchanged |
| SelectionValidator.FieldsIndependent | utils/selection_validator.py:15-49 | inputs that agree on one field give the same output for that field |
| Architecture.Sizing | agents/architecture_agent.py:19-23 | routers and switches are the least counts ≥ 1 covering the users at 150 and 48 per device; access points the least ≥ 2 covering the area at 1500 sqft; firewall iff Medium or High; IDS iff High |
| Architecture.IdsImpliesFirewall | agents/architecture_agent.py:22-23 | the IDS count never exceeds the firewall count |
| Architecture.SizingMonotone | agents/architecture_agent.py:19-21 | more employees never mean fewer routers or switches; a larger office never means fewer access points |
| Architecture.ScenarioHighTier | agents/architecture_agent.py:19-23 | 120 employees in 6000 sqft at High give 1, 3, 4, 1, 1 |
| Architecture.Design | agents/architecture_agent.py:107-144 | succeeds exactly when both validations succeed; the topology is copied unvalidated, the counts are the sizing, and `selected_models` is exactly the two validator outputs under "cisco" and "tplink" |
| Architecture.DesignFlags | agents/architecture_agent.py:130-138 | dual ISP implies redundancy and happens iff High; two cloud servers iff Cloud or Hybrid; two on-premises servers iff On-Prem or Hybrid; otherwise 0 |
| Architecture.DesignModelsInCatalog | agents/architecture_agent.py:108-115 | every model name of a built design is a member of its vendor's catalog |
| Costing.SelectedFor | agents/costing_agent.py:19-28 | a normalised key missing from `selected_models` raises the KeyError naming it and listing the available vendors, in order; a present key gives its own selection |
| Costing.DeviceTotal | agents/costing_agent.py:30-51 | the sum of the device lines exists exactly when the lines do, and otherwise the lookup raised StopIteration |
| Costing.DeviceLines | agents/costing_agent.py:32-51 | the lookups succeed exactly when router, switch, access point (and, with firewalls deployed, firewall) are in the catalog; the failure is StopIteration; four lines with a firewall, three without |
| Costing.CalculateVendorCost | agents/costing_agent.py:5-57 | the result equals the specification: catalog lookup, the selected-vendor check with its KeyError, then lines summed, ×1.1 under dual ISP, rounded to cents |
| Costing.PriceSelection | agents/costing_agent.py:30-57 | the accumulated `total_cost`, ×1.1 under dual ISP and rounded to cents, equals the selection's specified cost; a missing model raises StopIteration |
| Costing.AccumulateDeviceCost | agents/costing_agent.py:30-51 | the running `total_cost`, one category at a time and the firewall only when deployed, equals the sum of the device lines |
| Costing.PreMultiplierTotal | agents/costing_agent.py:30-51 | the pre-multiplier total is quantity × catalog price for router, switch and access point, plus the firewall line only when firewalls > 0 |
| Costing.FirewallIgnoredWhenAbsent | agents/costing_agent.py:47-51 | with no firewall deployed, any firewall name, even one outside the catalog, gives the same result |
| Costing.VendorCostErrors | agents/costing_agent.py:8-50 | an unknown vendor raises ValueError, a missing normalised key raises the KeyError whose message names that key and the available vendors, and a missing model raises StopIteration; nothing else is raised |
| Costing.RunCostAnalysis | agents/costing_agent.py:60-75 | Cisco first, then TP-Link, and the first failure propagates; the difference is the non-negative distance of the two totals; performance is 60 and 50 |
| Costing.PriceOf | agents/costing_agent.py:100 | a price lookup by model name raises KeyError(model) exactly for an unknown name |
| Costing.AgentCalculateVendorCost | agents/costing_agent.py:86-130 | the accumulated total equals: four device lines plus cloud servers, × the vendor's multiplier under dual ISP, × 1.15 above 200 third-year users |
| Costing.FirewallAlwaysPriced | agents/costing_agent.py:113-116 | the class variant raises exactly when the firewall name is unknown, even with no firewall deployed |
| Costing.ScaleThreshold | agents/costing_agent.py:127-128 | 200 third-year users give no scale factor, and 201 give exactly ×1.15 |
| Costing.AgentCostNonNegative | agents/costing_agent.py:96-130 | non-negative prices, counts and multiplier give a non-negative total |
| Costing.CalculateCost | agents/costing_agent.py:132-140 | both totals rounded to cents; the difference is the rounded distance of the unrounded totals and is ≥ 0; the first failure propagates |
| Performance.Throughput | agents/performance_agent.py:27 | absent throughput counts as 0 |
| Performance.SwitchCapacity | agents/performance_agent.py:36-40 | the first truthy of `max_devices` and `ports`, else 0; a zero `max_devices` falls through to `ports` |
| Performance.ApCapacity | agents/performance_agent.py:50 | absent `max_devices` counts as 0 |
| Performance.NormalizeBounds | agents/performance_agent.py:53-56 | the score never exceeds 100, is ≥ 0 for a non-negative sum, and is exactly 100 from a sum of 1000 up |
| Performance.NormalizeMonotone | agents/performance_agent.py:53-56 | a larger sum never gives a smaller score |
| Performance.EvaluateVendor | agents/performance_agent.py:9-56 | the score equals the specification: catalog and selection lookups, then the device score; it is ≤ 100 |
| Performance.ScoreDevices | agents/performance_agent.py:18-56 | the accumulated score equals the specification (0.4·throughput + 0.1·switch + 0.05·access point, /10, capped at 100, rounded) and is ≤ 100 |
| Performance.Evaluate | agents/performance_agent.py:58-63 | the "cisco" and "tplink" scores, Cisco first; the first failure propagates |
| Performance.PerformanceBounds | agents/performance_agent.py:27-56 | with non-negative attributes the score lies in [0, 100] |
| Performance.MonotoneInThroughput | agents/performance_agent.py:27-28 | a faster router never lowers the score |
| Performance.IndependentOfCounts | agents/performance_agent.py:14-56 | the score does not depend on the component counts |
| Performance.MissingModelRaises | agents/performance_agent.py:22-48 | the score fails exactly when router, switch or access point is missing from the catalog, and then with StopIteration |
| Security.Clamp | agents/security_agent.py:29 | the result is in [0, 100]: 0 below, 100 above, and the input itself when it already lies there |
| Security.ClampNeverBinds | agents/security_agent.py:11-29 | the unclamped risk lies in [10, 55], so the clamp never changes it |
| Security.CiscoFifteenBelow | agents/security_agent.py:24-27 | for the same design "cisco" scores exactly 15 below any other key |
| Security.RiskMonotone | agents/security_agent.py:13-22 | a higher tier, or a deployed firewall or IDS, never raises risk |
| Security.CalculateRisk | agents/security_agent.py:3-31 | one entry per key of `selected_models`, each the tier, firewall, IDS and vendor adjustments of 50, clamped |
| Optimization.Evaluate | agents/optimization_agent.py:10-22 | optimisation is needed iff Cisco is strictly over budget; the reason is "Both vendors..." when both are over, "Cisco..." when only Cisco is, "Within budget." otherwise, even when only TP-Link is over |
| Optimization.DowngradeTopology | agents/optimization_agent.py:24-33 | unknown topologies are unchanged, and known ones stay known |
| Optimization.TopologySteps | agents/optimization_agent.py:24-33 | Mesh goes to Hybrid, Hybrid to Star, and Star stays Star |
| Optimization.TwoStepsReachStar | agents/optimization_agent.py:24-33 | two step-downs bring any known topology to Star |
| Optimization.SortByPrice | agents/optimization_agent.py:42 | `sorted(..., key=price)` is ascending, a permutation, and stable (the same order within each price) |
| Optimization.DowngradeAmong | agents/optimization_agent.py:41-51 | after a stable sort by price, a present name with a cheaper neighbour yields that neighbour's name; the cheapest, or an absent name, is kept; the result is the current name or a catalog name |
| Optimization.DowngradeNoDearer | agents/optimization_agent.py:35-51 | an absent name is kept; a present one yields a catalog name whose device costs no more than one carrying the current name |
| Optimization.DowngradeKeepsCheapest | agents/optimization_agent.py:46-51 | the cheapest model in price order is kept |
| Optimization.DowngradeModel | agents/optimization_agent.py:35-51 | raises ValueError only for an unknown vendor; otherwise the step-down among that vendor's devices of the category |
| Optimization.DowngradeRouter | agents/optimization_agent.py:61-64 | a missing vendor key raises KeyError(key) |
| Optimization.ModifyDesign | agents/optimization_agent.py:53-72 | the package's design becomes the modified design, writes done before a KeyError included; the profile and projection are unchanged |
| Optimization.ModifyErrors | agents/optimization_agent.py:53-72 | the modification raises exactly when "cisco" or "tplink" is missing, with "cisco" looked up first |
| Optimization.DowngradeRouterShape | agents/optimization_agent.py:61-70 | one router step-down keeps the topology, changes only router names, and stores the stepped-down name under its key |
| Optimization.ModifyChangesOnlyTopologyAndRouters | agents/optimization_agent.py:53-72 | only the topology and router names change; counts, cloud split, redundancy, keys and other models are untouched |
| Optimization.ModifiedRoutersInCatalog | agents/optimization_agent.py:53-72 | with both keys present, each router becomes its step-down in its vendor's router list, and stays a catalog model |
| Recommendation.Composite | agents/optimization_agent.py:86-90 | the composite exists iff cost, performance and risk are all present, and is then cost − 1000·performance + 500·risk; otherwise KeyError for the first missing key: the cost key, then the vendor for performance, then the vendor for risk |
| Recommendation.BestIsFirstMinimum | agents/optimization_agent.py:81-94 | the scan succeeds iff every vendor has a composite; it then yields a vendor of minimal composite, and no earlier vendor ties with it; None only for no vendors |
| Recommendation.Recommend | agents/optimization_agent.py:75-109 | the loop's result equals the specification: the first minimal vendor, its cost looked up again and compared with the budget |
| Recommendation.NeededIffOverBudget | agents/optimization_agent.py:96-109 | `optimization_needed` iff the recommended vendor's cost is strictly above the budget |
| Recommendation.NoVendorsLooksUpNone | agents/optimization_agent.py:81-96 | with no vendors the lookup of "None_total_cost" raises, unless that key exists |
| Recommendation.RecommendsFirstMinimum | agents/optimization_agent.py:79-94 | the recommended vendor is a key of `selected_models` with minimal composite, and no earlier key ties with it |
| Deployment.Estimate | agents/deployment_agent.py:6-55 | cable 30 m per device; Fiber iff > 10000 sqft, Cat6 otherwise; 2 rack units per device in the least number of 42-unit racks; 4 hours at 1500 per device; 0.5 kW per device; total = Cisco cost + labour |
| Deployment.IdsExcluded | agents/deployment_agent.py:17-22 | the IDS count does not change the estimate |
| Deployment.TplinkNotAdded | agents/deployment_agent.py:39-42 | the TP-Link cost is reported but does not enter the total |
| Deployment.RackBoundary | agents/deployment_agent.py:28-29 | 1 to 21 devices need one rack, and 22 to 42 need two |
| Pipeline.BusinessProfile | agents/system_pipeline.py:22-29 | the profile holds exactly the six input fields |
| Pipeline.ProfileIgnoresOtherFields | agents/system_pipeline.py:22-29 | no other input field reaches the profile |
| Pipeline.RunAnalysisPhases | agents/system_pipeline.py:63-114 | the phases yield the specification of the old package value and leave the package in its final state |
| Pipeline.NoOptimizationKeepsAnalysis | agents/system_pipeline.py:89-105 | without optimisation the optimised analysis is the initial one and the package is unchanged |
| Pipeline.DecisionAndSnapshotArePreModification | agents/system_pipeline.py:77-87 | the snapshot is the package before the downgrade, and the decision is taken on the initial Cisco and TP-Link totals |
| Pipeline.AtMostOneModification | agents/system_pipeline.py:84-99 | the final design is the input or one modification of it, never a second; it changes only after a successful analysis with Cisco over budget |
| Pipeline.OutputsArePostModification | agents/system_pipeline.py:97-114 | the reported outputs and the deployment estimate are computed from the final package |
| JsonExtraction.RemoveAll | models/llm_handler.py:18 | `str.replace(pat, "")` yields an in-order subsequence of the text, never longer, and the text itself when the pattern does not occur |
| JsonExtraction.StripLeft | models/llm_handler.py:18 | only leading white space is removed, all of it |
| JsonExtraction.StripRight | models/llm_handler.py:18 | only trailing white space is removed, all of it |
| JsonExtraction.Strip | models/llm_handler.py:18 | the stripped text is the middle slice of the input with only white space before and after it, and neither starts nor ends with white space |
| JsonExtraction.CleanKeepsBraces | models/llm_handler.py:18 | fence removal and trimming never add, drop or reorder a brace |
| JsonExtraction.Find | models/llm_handler.py:21-23 | `find("{")` is the first index of the brace, or -1 exactly when there is none |
| JsonExtraction.ScanFrom | models/llm_handler.py:26-37 | succeeds iff the braces balance at some point after the start; the span is from the start to the first point of balance; otherwise "Incomplete JSON" |
| JsonExtraction.ExtractJson | models/llm_handler.py:12-37 | on the cleaned text: no '{' raises "No JSON object"; otherwise the span from the first '{' to the first point of balance, or "Incomplete JSON" if there is none |
| JsonExtraction.FirstBalanceUnique | models/llm_handler.py:26-35 | the first point of balance is unique |
| JsonExtraction.SuffixIgnored | models/llm_handler.py:26-35 | text after the extracted span never changes it |
| JsonExtraction.BraceInStringEndsSpan | models/llm_handler.py:27-35 | braces inside string literals are counted: `{"a":"}"}` yields `{"a":"}` |
| InputSchema.TransformInputSchema | agents/llm_cost_analysis_agent.py:24-49 | counts renamed with default 0; `ids` iff the IDS count > 0; security level defaults to "Medium", redundancy to False, budget to 0, vendor options to [] |
| InputSchema.EmptyInputDefaults | agents/llm_cost_analysis_agent.py:26-48 | an empty input gives every default |
| InputSchema.FullInputRenamed | agents/llm_cost_analysis_agent.py:30-47 | a complete input is copied field for field under the new names |

## Left out

- File I/O: the catalog JSON files read by `CatalogLoader.__init__` and by `CostingAgent.__init__` are left out. Both catalogs are parameters (`Catalog.CatalogLoader` and a `map<string, PriceList>`).
- Language-model calls are left out. The model-selection answer used by `design` is an abstract input (`Architecture.OracleSelection`), already shaped as a topology and two name dicts. A missing "cisco_models" or "tplink_models" key in that answer is therefore not modelled.
- The requirement and scalability agents, the insight, diagram and PDF phases (2, 6, 7 and 8 of the pipeline), `LLMHandler.call` and the rest of agents/llm_cost_analysis_agent.py are not part of this model.
- Floating point: arithmetic is exact over `real`, and `round` rounds the exact value. IEEE representation and rounding effects are not modelled.
- `str.lower()` is modelled for ASCII letters only.
- JsonExtraction.ExtractJson: returns the extracted substring. Parsing it with `json.loads` is foreign code and not modelled, so malformed JSON inside a balanced span is not reported.
- Optimization.DowngradeModel: the category is an enumeration of the four catalog lists. An unknown category string, which would raise KeyError, is not modelled.
- InputSchema.TransformInputSchema: a missing key and a key explicitly holding `None` are both `None` here. In Python an explicit `None` is passed through instead of being defaulted.
- Security.CalculateRisk: the result is a `map`. It has the right keys and values, but the insertion order of the Python dict is not modelled.
- The pipeline calls methods that do not exist on the objects it holds. `security_agent.evaluate` does not exist. The pipeline imports `OptimizationAgent` (agents/system_pipeline.py:9), and the second class of that name (agents/optimization_agent.py:73) shadows the first; it has only `recommend`, so `optimizer.evaluate` (agents/system_pipeline.py:84) and `optimizer.modify_design` (agents/system_pipeline.py:91) raise AttributeError. The first class's `modify_design` would also be called with one argument too many. Phases 3 to 5 are therefore modelled as intended: abstract cost, performance and security scorers (function parameters), the first class's `Optimization.Evaluate` and the one-argument `Optimization.ModifyDesign`.
- The code as written, which the model follows:
  - The performance score has no bonuses beyond the weighted sum.
  - The risk score gives no credit for a dual ISP.
  - The budget evaluation looks only at costs, not at performance or risk.
  - A TP-Link-only overrun is not flagged.
  - The risk floor and ceiling never bind.
  - The `CostingAgent` variant always looks up the firewall price.
