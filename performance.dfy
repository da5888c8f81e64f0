/** The performance scorer of agents/performance_agent.py: a weighted sum of
    router throughput, switch capacity and access-point capacity, scaled down
    by ten, capped at 100 and rounded to cents. */
module Performance {
  import opened Common
  import opened Numeric
  import opened Catalog
  import opened Model

  /** `router.get("throughput_mbps", 0)`. */
  function Throughput(router: Device): (t: int)
    ensures router.throughputMbps.None? ==> t == 0
    ensures router.throughputMbps.Some? ==> t == router.throughputMbps.value
  {
    match router.throughputMbps
    case Some(v) => v
    case None => 0
  }

  /** Python truthiness of an optional count: absent and zero are both false. */
  predicate Truthy(v: Option<int>) {
    v.Some? && v.value != 0
  }

  /** `switch.get("max_devices") or switch.get("ports") or 0`: the first truthy
      value, so a zero `max_devices` also falls through to `ports`. */
  function SwitchCapacity(switch: Device): (c: int)
    ensures Truthy(switch.maxDevices) ==> c == switch.maxDevices.value
    ensures !Truthy(switch.maxDevices) && Truthy(switch.ports) ==> c == switch.ports.value
    ensures !Truthy(switch.maxDevices) && !Truthy(switch.ports) ==> c == 0
  {
    if Truthy(switch.maxDevices) then switch.maxDevices.value
    else if Truthy(switch.ports) then switch.ports.value
    else 0
  }

  /** `ap.get("max_devices", 0)`. */
  function ApCapacity(ap: Device): (c: int)
    ensures ap.maxDevices.None? ==> c == 0
    ensures ap.maxDevices.Some? ==> c == ap.maxDevices.value
  {
    match ap.maxDevices
    case Some(v) => v
    case None => 0
  }

  /** The weighted sum before normalisation. */
  function RawScore(throughput: int, switchCapacity: int, apCapacity: int): real {
    throughput as real * 0.4 + switchCapacity as real * 0.1 + apCapacity as real * 0.05
  }

  /** `round(min(score / 10, 100), 2)`. */
  function Normalize(raw: real): real {
    Round2(MinReal(raw / 10.0, 100.0))
  }

  /** The normalised score never exceeds 100, is not negative for a
      non-negative sum, and is exactly 100 once the sum reaches 1000. */
  lemma {:induction false} NormalizeBounds(raw: real)
    ensures Normalize(raw) <= 100.0
    ensures raw >= 0.0 ==> Normalize(raw) >= 0.0
    ensures raw >= 1000.0 ==> Normalize(raw) == 100.0
  {
    var m := MinReal(raw / 10.0, 100.0);
    Round2Monotone(m, 100.0);
    Round2OfWhole(100);
    if raw >= 1000.0 {
      assert m == 100.0;
    }
  }

  /** A larger sum never gives a smaller score. */
  lemma {:induction false} NormalizeMonotone(raw1: real, raw2: real)
    requires raw1 <= raw2
    ensures Normalize(raw1) <= Normalize(raw2)
  {
    Round2Monotone(MinReal(raw1 / 10.0, 100.0), MinReal(raw2 / 10.0, 100.0));
  }

  /** The specification of `evaluate_vendor`: look up the vendor's catalog and
      its selected router, switch and access point (the firewall is not used),
      and normalise the weighted sum of their attributes. */
  function VendorPerformance(loader: CatalogLoader, vendorName: string, design: InfraDesign): Result<real> {
    var catalog :- GetVendorCatalog(loader, vendorName);
    var selected :- LookupVendor(design.selectedModels, NormalizeVendor(vendorName));
    DeviceScore(catalog, selected)
  }

  /** The score of one vendor's selected router, switch and access point. */
  function DeviceScore(catalog: VendorCatalog, selected: Selection): Result<real> {
    var router :- FindModel(catalog.routers, selected.routerModel);
    var switch :- FindModel(catalog.switches, selected.switchModel);
    var ap :- FindModel(catalog.accessPoints, selected.accessPointModel);
    Success(Normalize(RawScore(Throughput(router), SwitchCapacity(switch), ApCapacity(ap))))
  }

  /** `evaluate_vendor(vendor, infra_package)`: the catalog and selection
      lookups, then the device loop. */
  method EvaluateVendor(loader: CatalogLoader, vendorName: string, pkg: PackageValue) returns (r: Result<real>)
    ensures r == VendorPerformance(loader, vendorName, pkg.design)
    ensures r.Success? ==> r.value <= 100.0
  {
    var catalog :- GetVendorCatalog(loader, vendorName);
    var design := pkg.design;
    var normalized := NormalizeVendor(vendorName);
    var selected :- LookupVendor(design.selectedModels, normalized);
    r := ScoreDevices(catalog, selected);
  }

  /** The body of `evaluate_vendor` after the lookups: accumulates `score`
      one device at a time, then normalises it. */
  method ScoreDevices(catalog: VendorCatalog, selected: Selection) returns (r: Result<real>)
    ensures r == DeviceScore(catalog, selected)
    ensures r.Success? ==> r.value <= 100.0
  {
    var score := 0.0;
    var router :- FindModel(catalog.routers, selected.routerModel);
    var throughput := Throughput(router);
    score := score + throughput as real * 0.4;

    var switch :- FindModel(catalog.switches, selected.switchModel);
    var switchCapacity := SwitchCapacity(switch);
    score := score + switchCapacity as real * 0.1;

    var ap :- FindModel(catalog.accessPoints, selected.accessPointModel);
    var apCapacity := ApCapacity(ap);
    score := score + apCapacity as real * 0.05;

    assert score == RawScore(throughput, switchCapacity, apCapacity);
    var raw := score;
    NormalizeBounds(raw);
    score := MinReal(score / 10.0, 100.0);
    assert Round2(score) == Normalize(raw);
    return Success(Round2(score));
  }

  /** The scores of both vendors, keyed "cisco" and "tplink". */
  datatype PerformanceScores = PerformanceScores(cisco: real, tplink: real)

  /** `evaluate`: Cisco first, then TP-Link; the first failure propagates. */
  method Evaluate(loader: CatalogLoader, pkg: PackageValue) returns (r: Result<PerformanceScores>)
    ensures var c, t := VendorPerformance(loader, "Cisco", pkg.design), VendorPerformance(loader, "TP-Link", pkg.design);
      && (r.Success? <==> c.Success? && t.Success?)
      && (c.Failure? ==> r == Failure(c.error))
      && (c.Success? && t.Failure? ==> r == Failure(t.error))
      && (r.Success? ==> r.value == PerformanceScores(c.value, t.value))
  {
    var cisco :- EvaluateVendor(loader, "Cisco", pkg);
    var tplink :- EvaluateVendor(loader, "TP-Link", pkg);
    return Success(PerformanceScores(cisco, tplink));
  }

  /** With non-negative attributes the score lies in [0, 100]. */
  lemma {:induction false} PerformanceBounds(loader: CatalogLoader, vendorName: string, design: InfraDesign)
    requires VendorPerformance(loader, vendorName, design).Success?
    requires forall d :: d in loader.cisco.routers + loader.tplink.routers ==> Throughput(d) >= 0
    requires forall d :: d in loader.cisco.switches + loader.tplink.switches ==> SwitchCapacity(d) >= 0
    requires forall d :: d in loader.cisco.accessPoints + loader.tplink.accessPoints ==> ApCapacity(d) >= 0
    ensures 0.0 <= VendorPerformance(loader, vendorName, design).value <= 100.0
  {
    var catalog := GetVendorCatalog(loader, vendorName).value;
    CiscoCatalog(loader);
    TpLinkCatalog(loader);
    var selected := LookupVendor(design.selectedModels, NormalizeVendor(vendorName)).value;
    var router := FindModel(catalog.routers, selected.routerModel).value;
    var switch := FindModel(catalog.switches, selected.switchModel).value;
    var ap := FindModel(catalog.accessPoints, selected.accessPointModel).value;
    assert router in loader.cisco.routers + loader.tplink.routers;
    assert switch in loader.cisco.switches + loader.tplink.switches;
    assert ap in loader.cisco.accessPoints + loader.tplink.accessPoints;
    NormalizeBounds(RawScore(Throughput(router), SwitchCapacity(switch), ApCapacity(ap)));
  }

  /** A faster router (other devices equal) never lowers the score. */
  lemma {:induction false} MonotoneInThroughput(t1: int, t2: int, switchCapacity: int, apCapacity: int)
    requires t1 <= t2
    ensures Normalize(RawScore(t1, switchCapacity, apCapacity)) <= Normalize(RawScore(t2, switchCapacity, apCapacity))
  {
    NormalizeMonotone(RawScore(t1, switchCapacity, apCapacity), RawScore(t2, switchCapacity, apCapacity));
  }

  /** The score reads neither the component counts nor the firewall model. */
  lemma IndependentOfCounts(loader: CatalogLoader, vendorName: string, design: InfraDesign, comps: Components)
    ensures VendorPerformance(loader, vendorName, design.(components := comps)) == VendorPerformance(loader, vendorName, design)
  {
  }

  /** A selected router, switch or access point missing from the catalog
      raises StopIteration. */
  lemma {:induction false} MissingModelRaises(loader: CatalogLoader, vendorName: string, design: InfraDesign)
    requires GetVendorCatalog(loader, vendorName).Success?
    requires NormalizeVendor(vendorName) in VendorKeys(design.selectedModels)
    ensures var c := GetVendorCatalog(loader, vendorName).value;
      var s := LookupVendor(design.selectedModels, NormalizeVendor(vendorName)).value;
      VendorPerformance(loader, vendorName, design).Failure? <==>
        (s.routerModel !in ModelNames(c.routers) || s.switchModel !in ModelNames(c.switches) ||
         s.accessPointModel !in ModelNames(c.accessPoints))
    ensures VendorPerformance(loader, vendorName, design).Failure? ==>
      VendorPerformance(loader, vendorName, design).error == StopIteration
  {
  }
}
