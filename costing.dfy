/** The two cost scorers of agents/costing_agent.py.

    The module-level `calculate_vendor_cost` prices the selected models from the
    record lists of the catalog loader, skips the firewall line when no firewall
    is deployed, applies the dual-ISP factor 1.1 and rounds to cents.

    The `CostingAgent` class prices them from its own catalog of dicts keyed by
    model name, always adds the firewall line, adds the cloud servers, applies
    the vendor's redundancy multiplier and a 1.15 scale factor above 200
    third-year users, and leaves rounding to `calculate_cost`. */
module Costing {
  import opened Common
  import opened Numeric
  import opened Catalog
  import opened Model

  /** `{cisco_total_cost, tplink_total_cost, cost_difference}`. */
  datatype CostComparison = CostComparison(ciscoTotalCost: real, tplinkTotalCost: real, costDifference: real)

  // ---------------------------------------------------------------------------
  // Module-level variant
  // ---------------------------------------------------------------------------

  /** One priced category: quantity times the catalog price of the model. */
  datatype CostLine = CostLine(category: Category, model: string, quantity: int, unitPrice: real)

  function LineTotal(line: CostLine): real {
    line.quantity as real * line.unitPrice
  }

  function SumLines(lines: seq<CostLine>): real {
    if lines == [] then 0.0 else LineTotal(lines[0]) + SumLines(lines[1..])
  }

  /** The lines the module-level calculation adds up: router, switch and access
      point always, the firewall only when at least one is deployed.  A model
      that is not in its category raises StopIteration. */
  function DeviceLines(catalog: VendorCatalog, sel: Selection, comps: Components): (r: Result<seq<CostLine>>)
    ensures r.Success? <==>
      && sel.routerModel in ModelNames(catalog.routers)
      && sel.switchModel in ModelNames(catalog.switches)
      && sel.accessPointModel in ModelNames(catalog.accessPoints)
      && (comps.firewalls > 0 ==> sel.firewallModel in ModelNames(catalog.firewalls))
    ensures r.Failure? ==> r.error == StopIteration
    ensures r.Success? ==> |r.value| == if comps.firewalls > 0 then 4 else 3
  {
    var router :- FindModel(catalog.routers, sel.routerModel);
    var switch :- FindModel(catalog.switches, sel.switchModel);
    var ap :- FindModel(catalog.accessPoints, sel.accessPointModel);
    var lines := [
      CostLine(Routers, router.model, comps.routers, router.price),
      CostLine(Switches, switch.model, comps.switches, switch.price),
      CostLine(AccessPoints, ap.model, comps.accessPoints, ap.price)];
    if comps.firewalls > 0 then
      var fw :- FindModel(catalog.firewalls, sel.firewallModel);
      Success(lines + [CostLine(Firewalls, fw.model, comps.firewalls, fw.price)])
    else
      Success(lines)
  }

  /** The sum of the device lines, before any multiplier. */
  function DeviceTotal(catalog: VendorCatalog, sel: Selection, comps: Components): (r: Result<real>)
    ensures r.Success? <==> DeviceLines(catalog, sel, comps).Success?
    ensures r.Failure? ==> r.error == StopIteration
  {
    var lines :- DeviceLines(catalog, sel, comps);
    Success(SumLines(lines))
  }

  /** The membership test before `selected_models[normalized_vendor]`: a
      missing key raises a KeyError whose message names the key and lists the
      available vendors; a present key gives its selection. */
  function SelectedFor(entries: seq<VendorEntry>, key: string): (r: Result<Selection>)
    ensures key !in VendorKeys(entries) ==> r == Failure(VendorNotSelected(key, VendorKeys(entries)))
    ensures key in VendorKeys(entries) ==> r.Success? && VendorEntry(key, r.value) in entries
  {
    if key !in VendorKeys(entries) then Failure(VendorNotSelected(key, VendorKeys(entries)))
    else LookupVendor(entries, key)
  }

  /** The specification of the module-level `calculate_vendor_cost`. */
  function VendorCost(loader: CatalogLoader, vendorName: string, design: InfraDesign): Result<real> {
    var catalog :- GetVendorCatalog(loader, vendorName);
    var selected :- SelectedFor(design.selectedModels, NormalizeVendor(vendorName));
    SelectionCost(catalog, selected, design)
  }

  /** The cost of one vendor's selection: the device lines summed, ×1.1
      under dual ISP, rounded to cents. */
  function SelectionCost(catalog: VendorCatalog, selected: Selection, design: InfraDesign): Result<real> {
    var total :- DeviceTotal(catalog, selected, design.components);
    Success(Round2(if design.redundancy.dualIsp then total * 1.1 else total))
  }

  lemma {:induction false} SumLinesAppend(lines: seq<CostLine>, line: CostLine)
    ensures SumLines(lines + [line]) == SumLines(lines) + LineTotal(line)
    decreases |lines|
  {
    if lines == [] {
      assert [] + [line] == [line];
    } else {
      assert (lines + [line])[1..] == lines[1..] + [line];
      SumLinesAppend(lines[1..], line);
    }
  }

  /** `calculate_vendor_cost(vendor_name, infra_package)`: the catalog, the
      normalised key and its selection, then the pricing. */
  method CalculateVendorCost(loader: CatalogLoader, vendorName: string, pkg: PackageValue) returns (r: Result<real>)
    ensures r == VendorCost(loader, vendorName, pkg.design)
  {
    var catalog :- GetVendorCatalog(loader, vendorName);
    var design := pkg.design;
    var normalized := NormalizeVendor(vendorName);
    var selectedModels := design.selectedModels;
    if normalized !in VendorKeys(selectedModels) {
      return Failure(VendorNotSelected(normalized, VendorKeys(selectedModels)));
    }
    var selected := LookupVendor(selectedModels, normalized).value;
    r := PriceSelection(catalog, selected, design);
  }

  /** The rest of `calculate_vendor_cost`: the device costs accumulated, the
      redundancy multiplier applied to `total_cost`, and the rounding. */
  method PriceSelection(catalog: VendorCatalog, selected: Selection, design: InfraDesign) returns (r: Result<real>)
    ensures r == SelectionCost(catalog, selected, design)
  {
    var cost :- AccumulateDeviceCost(catalog, selected, design.components);
    if design.redundancy.dualIsp {
      cost := cost * 1.1;
    }
    return Success(Round2(cost));
  }

  /** The device-cost accumulation of `calculate_vendor_cost`: each
      category's quantity times its catalog price added to `total_cost`, the
      firewall only when at least one is deployed; the result is the sum of
      the device lines. */
  method AccumulateDeviceCost(catalog: VendorCatalog, selected: Selection, components: Components) returns (r: Result<real>)
    ensures r == DeviceTotal(catalog, selected, components)
  {
    // The lines added so far, kept beside the running total.
    ghost var lines: seq<CostLine> := [];
    var totalCost := 0.0;
    var router :- FindModel(catalog.routers, selected.routerModel);
    totalCost := totalCost + components.routers as real * router.price;
    lines := [CostLine(Routers, router.model, components.routers, router.price)];
    var switch :- FindModel(catalog.switches, selected.switchModel);
    SumLinesAppend(lines, CostLine(Switches, switch.model, components.switches, switch.price));
    totalCost := totalCost + components.switches as real * switch.price;
    lines := lines + [CostLine(Switches, switch.model, components.switches, switch.price)];
    var ap :- FindModel(catalog.accessPoints, selected.accessPointModel);
    SumLinesAppend(lines, CostLine(AccessPoints, ap.model, components.accessPoints, ap.price));
    totalCost := totalCost + components.accessPoints as real * ap.price;
    lines := lines + [CostLine(AccessPoints, ap.model, components.accessPoints, ap.price)];
    assert lines == [
      CostLine(Routers, router.model, components.routers, router.price),
      CostLine(Switches, switch.model, components.switches, switch.price),
      CostLine(AccessPoints, ap.model, components.accessPoints, ap.price)];
    if components.firewalls > 0 {
      var fw :- FindModel(catalog.firewalls, selected.firewallModel);
      SumLinesAppend(lines, CostLine(Firewalls, fw.model, components.firewalls, fw.price));
      totalCost := totalCost + components.firewalls as real * fw.price;
      lines := lines + [CostLine(Firewalls, fw.model, components.firewalls, fw.price)];
    }
    assert DeviceLines(catalog, selected, components) == Success(lines);
    assert SumLines(lines) == totalCost;
    return Success(totalCost);
  }

  /** Before the multiplier the total is routers, switches and access points
      at their catalog prices, plus the firewalls only when there are any. */
  lemma {:induction false} PreMultiplierTotal(catalog: VendorCatalog, sel: Selection, comps: Components)
    requires DeviceLines(catalog, sel, comps).Success?
    ensures
      SumLines(DeviceLines(catalog, sel, comps).value) ==
        comps.routers as real * FindModel(catalog.routers, sel.routerModel).value.price
        + comps.switches as real * FindModel(catalog.switches, sel.switchModel).value.price
        + comps.accessPoints as real * FindModel(catalog.accessPoints, sel.accessPointModel).value.price
        + (if comps.firewalls > 0 then comps.firewalls as real * FindModel(catalog.firewalls, sel.firewallModel).value.price else 0.0)
  {
    var v := DeviceLines(catalog, sel, comps).value;
    var three := v[..3];
    assert SumLines(three) == LineTotal(v[0]) + LineTotal(v[1]) + LineTotal(v[2]) by {
      assert three == [v[0]] + [v[1]] + [v[2]];
      SumLinesAppend([v[0]], v[1]);
      assert [v[0]] + [v[1]] == [v[0], v[1]];
      SumLinesAppend([v[0], v[1]], v[2]);
      assert [v[0], v[1]] + [v[2]] == three;
    }
    if comps.firewalls > 0 {
      SumLinesAppend(three, v[3]);
      assert three + [v[3]] == v;
    } else {
      assert three == v;
    }
  }

  /** With no firewall deployed the firewall model is never looked up: any
      name, even one outside the catalog, gives the same lines. */
  lemma FirewallIgnoredWhenAbsent(catalog: VendorCatalog, sel: Selection, comps: Components, other: string)
    requires comps.firewalls <= 0
    ensures DeviceLines(catalog, sel.(firewallModel := other), comps) == DeviceLines(catalog, sel, comps)
  {
  }

  /** The module-level variant raises ValueError for an unknown vendor name,
      a KeyError naming the normalised name and the available vendors when it
      is not a key of `selected_models`, and
      StopIteration when a needed model is not in the catalog. */
  lemma {:induction false} VendorCostErrors(loader: CatalogLoader, vendorName: string, design: InfraDesign)
    ensures var r := VendorCost(loader, vendorName, design);
      var key := NormalizeVendor(vendorName);
      && (GetVendorCatalog(loader, vendorName).Failure? ==> r == Failure(UnsupportedVendor))
      && (GetVendorCatalog(loader, vendorName).Success? && key !in VendorKeys(design.selectedModels) ==>
            r == Failure(VendorNotSelected(key, VendorKeys(design.selectedModels))))
      && (GetVendorCatalog(loader, vendorName).Success? && key in VendorKeys(design.selectedModels) ==>
            (r.Failure? <==> DeviceLines(GetVendorCatalog(loader, vendorName).value,
                                         LookupVendor(design.selectedModels, key).value,
                                         design.components).Failure?))
      && (r.Failure? ==> r.error in {UnsupportedVendor, VendorNotSelected(key, VendorKeys(design.selectedModels)), StopIteration})
  {
  }

  /** `run_cost_analysis` output: the two totals, their distance, and the two
      fixed performance scores. */
  datatype CostAnalysisReport = CostAnalysisReport(
    costAnalysis: CostComparison,
    ciscoPerformance: int,
    tplinkPerformance: int)

  /** `run_cost_analysis`: Cisco first, then TP-Link; the difference is the
      absolute value of the two rounded totals. */
  method RunCostAnalysis(loader: CatalogLoader, pkg: PackageValue) returns (r: Result<CostAnalysisReport>)
    ensures var c, t := VendorCost(loader, "Cisco", pkg.design), VendorCost(loader, "TP-Link", pkg.design);
      && (r.Success? <==> c.Success? && t.Success?)
      && (c.Failure? ==> r == Failure(c.error))
      && (c.Success? && t.Failure? ==> r == Failure(t.error))
      && (r.Success? ==>
            && r.value.costAnalysis.ciscoTotalCost == c.value
            && r.value.costAnalysis.tplinkTotalCost == t.value
            && r.value.costAnalysis.costDifference >= 0.0
            && (r.value.costAnalysis.costDifference == c.value - t.value ||
                r.value.costAnalysis.costDifference == t.value - c.value)
            && r.value.ciscoPerformance == 60 && r.value.tplinkPerformance == 50)
  {
    var ciscoCost :- CalculateVendorCost(loader, "Cisco", pkg);
    var tplinkCost :- CalculateVendorCost(loader, "TP-Link", pkg);
    return Success(CostAnalysisReport(
      CostComparison(ciscoCost, tplinkCost, AbsReal(ciscoCost - tplinkCost)), 60, 50));
  }

  // ---------------------------------------------------------------------------
  // CostingAgent class variant
  // ---------------------------------------------------------------------------

  /** One vendor of the CostingAgent catalog: prices keyed by model name, the
      price of a cloud server and the redundancy multiplier. */
  datatype PriceList = PriceList(
    routers: map<string, real>,
    switches: map<string, real>,
    accessPoints: map<string, real>,
    firewalls: map<string, real>,
    cloudServerCost: real,
    redundancyMultiplier: real)

  /** `prices[model]["price"]`. */
  function PriceOf(prices: map<string, real>, model: string): (r: Result<real>)
    ensures r.Success? <==> model in prices
    ensures r.Success? ==> r.value == prices[model]
    ensures r.Failure? ==> r.error == KeyError(model)
  {
    if model in prices then Success(prices[model]) else Failure(KeyError(model))
  }

  /** The total of the class variant before any multiplier: all four device
      lines (the firewall line is always there) and the cloud servers. */
  function BaseCost(prices: PriceList, sel: Selection, comps: Components, cloudServers: int): Result<real> {
    var routerPrice :- PriceOf(prices.routers, sel.routerModel);
    var switchPrice :- PriceOf(prices.switches, sel.switchModel);
    var apPrice :- PriceOf(prices.accessPoints, sel.accessPointModel);
    var fwPrice :- PriceOf(prices.firewalls, sel.firewallModel);
    Success(comps.routers as real * routerPrice + comps.switches as real * switchPrice
      + comps.accessPoints as real * apPrice + comps.firewalls as real * fwPrice
      + cloudServers as real * prices.cloudServerCost)
  }

  /** The specification of `CostingAgent.calculate_vendor_cost`: the base cost,
      times the redundancy multiplier under dual ISP, then times 1.15 when more
      than 200 users are projected for year three. */
  function AgentVendorCost(catalog: map<string, PriceList>, pkg: PackageValue, vendorKey: string): Result<real> {
    var design := pkg.design;
    var selected :- LookupVendor(design.selectedModels, vendorKey);
    var prices :- if vendorKey in catalog then Success(catalog[vendorKey]) else Failure(KeyError(vendorKey));
    var base :- BaseCost(prices, selected, design.components, design.cloud.cloudServers);
    var redundant := if design.redundancy.dualIsp then base * prices.redundancyMultiplier else base;
    Success(if pkg.scalability.year3Users > 200 then redundant * 1.15 else redundant)
  }

  /** `CostingAgent.calculate_vendor_cost(infra_package, vendor_key)`. */
  method AgentCalculateVendorCost(catalog: map<string, PriceList>, pkg: PackageValue, vendorKey: string) returns (r: Result<real>)
    ensures r == AgentVendorCost(catalog, pkg, vendorKey)
  {
    var components := pkg.design.components;
    var selectedModels :- LookupVendor(pkg.design.selectedModels, vendorKey);
    var cloudServers := pkg.design.cloud.cloudServers;
    var dualIsp := pkg.design.redundancy.dualIsp;
    var year3Users := pkg.scalability.year3Users;
    if vendorKey !in catalog {
      return Failure(KeyError(vendorKey));
    }
    var vendorCatalog := catalog[vendorKey];

    var totalCost := 0.0;
    var routerPrice :- PriceOf(vendorCatalog.routers, selectedModels.routerModel);
    totalCost := totalCost + components.routers as real * routerPrice;
    var switchPrice :- PriceOf(vendorCatalog.switches, selectedModels.switchModel);
    totalCost := totalCost + components.switches as real * switchPrice;
    var apPrice :- PriceOf(vendorCatalog.accessPoints, selectedModels.accessPointModel);
    totalCost := totalCost + components.accessPoints as real * apPrice;
    var fwPrice :- PriceOf(vendorCatalog.firewalls, selectedModels.firewallModel);
    totalCost := totalCost + components.firewalls as real * fwPrice;
    totalCost := totalCost + cloudServers as real * vendorCatalog.cloudServerCost;
    assert totalCost == BaseCost(vendorCatalog, selectedModels, components, cloudServers).value;
    if dualIsp {
      totalCost := totalCost * vendorCatalog.redundancyMultiplier;
    }
    if year3Users > 200 {
      totalCost := totalCost * 1.15;
    }
    return Success(totalCost);
  }

  /** The firewall model is looked up even when no firewall is deployed, so an
      unknown firewall name raises although its line would be zero. */
  lemma FirewallAlwaysPriced(catalog: map<string, PriceList>, pkg: PackageValue, vendorKey: string)
    requires vendorKey in catalog && vendorKey in VendorKeys(pkg.design.selectedModels)
    requires var sel := LookupVendor(pkg.design.selectedModels, vendorKey).value;
      && sel.routerModel in catalog[vendorKey].routers
      && sel.switchModel in catalog[vendorKey].switches
      && sel.accessPointModel in catalog[vendorKey].accessPoints
    ensures var sel := LookupVendor(pkg.design.selectedModels, vendorKey).value;
      AgentVendorCost(catalog, pkg, vendorKey).Failure? <==> sel.firewallModel !in catalog[vendorKey].firewalls
  {
  }

  /** The scale factor applies strictly above 200 third-year users. */
  lemma {:induction false} ScaleThreshold(catalog: map<string, PriceList>, pkg: PackageValue, vendorKey: string)
    requires AgentVendorCost(catalog, pkg, vendorKey).Success?
    ensures var at200 := AgentVendorCost(catalog, pkg.(scalability := Scalability(200)), vendorKey);
      var at201 := AgentVendorCost(catalog, pkg.(scalability := Scalability(201)), vendorKey);
      at200.Success? && at201 == Success(at200.value * 1.15)
  {
  }

  /** With non-negative prices, counts and multipliers the total is never
      negative. */
  lemma {:induction false} AgentCostNonNegative(catalog: map<string, PriceList>, pkg: PackageValue, vendorKey: string)
    requires AgentVendorCost(catalog, pkg, vendorKey).Success?
    requires vendorKey in catalog
    requires var p := catalog[vendorKey];
      && (forall m :: m in p.routers ==> p.routers[m] >= 0.0)
      && (forall m :: m in p.switches ==> p.switches[m] >= 0.0)
      && (forall m :: m in p.accessPoints ==> p.accessPoints[m] >= 0.0)
      && (forall m :: m in p.firewalls ==> p.firewalls[m] >= 0.0)
      && p.cloudServerCost >= 0.0 && p.redundancyMultiplier >= 0.0
    requires var c := pkg.design.components;
      c.routers >= 0 && c.switches >= 0 && c.accessPoints >= 0 && c.firewalls >= 0 && pkg.design.cloud.cloudServers >= 0
    ensures AgentVendorCost(catalog, pkg, vendorKey).value >= 0.0
  {
    var p := catalog[vendorKey];
    var sel := LookupVendor(pkg.design.selectedModels, vendorKey).value;
    var c := pkg.design.components;
    var base := BaseCost(p, sel, c, pkg.design.cloud.cloudServers).value;
    assert base >= 0.0 by {
      assert c.routers as real * p.routers[sel.routerModel] >= 0.0;
      assert c.switches as real * p.switches[sel.switchModel] >= 0.0;
      assert c.accessPoints as real * p.accessPoints[sel.accessPointModel] >= 0.0;
      assert c.firewalls as real * p.firewalls[sel.firewallModel] >= 0.0;
      assert pkg.design.cloud.cloudServers as real * p.cloudServerCost >= 0.0;
    }
    var redundant := if pkg.design.redundancy.dualIsp then base * p.redundancyMultiplier else base;
    assert redundant >= 0.0;
  }

  /** `calculate_cost`: both totals rounded to cents, and the rounded distance
      between the unrounded totals. */
  method CalculateCost(catalog: map<string, PriceList>, pkg: PackageValue) returns (r: Result<CostComparison>)
    ensures var c, t := AgentVendorCost(catalog, pkg, "cisco"), AgentVendorCost(catalog, pkg, "tplink");
      && (r.Success? <==> c.Success? && t.Success?)
      && (c.Failure? ==> r == Failure(c.error))
      && (c.Success? && t.Failure? ==> r == Failure(t.error))
      && (r.Success? ==>
            && r.value.ciscoTotalCost == Round2(c.value)
            && r.value.tplinkTotalCost == Round2(t.value)
            && r.value.costDifference == Round2(AbsReal(c.value - t.value))
            && r.value.costDifference >= 0.0)
  {
    var ciscoCost :- AgentCalculateVendorCost(catalog, pkg, "cisco");
    var tplinkCost :- AgentCalculateVendorCost(catalog, pkg, "tplink");
    return Success(CostComparison(Round2(ciscoCost), Round2(tplinkCost), Round2(AbsReal(ciscoCost - tplinkCost))));
  }
}
