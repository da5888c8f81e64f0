/** The first `OptimizationAgent` of agents/optimization_agent.py: the budget
    check, the one-step downgrades of topology and router model, and the
    in-place modification of the package's design. */
module Optimization {
  import opened Common
  import opened Catalog
  import opened Model
  import opened Costing

  // ---------------------------------------------------------------------------
  // Budget check
  // ---------------------------------------------------------------------------

  datatype Decision = Decision(optimizationNeeded: bool, reason: string)

  /** `evaluate(infra_package, cost_output)`: only the Cisco total decides
      whether optimisation is needed; the TP-Link total only selects the
      reason.  A cost equal to the budget is within budget. */
  function Evaluate(budget: real, costs: CostComparison): (d: Decision)
    ensures d.optimizationNeeded <==> costs.ciscoTotalCost > budget
    ensures costs.ciscoTotalCost > budget && costs.tplinkTotalCost > budget ==>
      d.reason == "Both vendors exceed budget."
    ensures costs.ciscoTotalCost > budget && costs.tplinkTotalCost <= budget ==>
      d.reason == "Cisco exceeds budget."
    ensures costs.ciscoTotalCost <= budget ==> d.reason == "Within budget."
  {
    if costs.ciscoTotalCost > budget && costs.tplinkTotalCost > budget then
      Decision(true, "Both vendors exceed budget.")
    else if costs.ciscoTotalCost > budget then
      Decision(true, "Cisco exceeds budget.")
    else
      Decision(false, "Within budget.")
  }

  // ---------------------------------------------------------------------------
  // Topology step-down
  // ---------------------------------------------------------------------------

  const TopologyOrder: seq<string> := ["Mesh", "Hybrid", "Star"]

  /** `downgrade_topology`: the next entry of Mesh, Hybrid, Star; the last one
      and unknown values stay as they are. */
  function DowngradeTopology(topology: string): (t: string)
    ensures topology !in TopologyOrder ==> t == topology
    ensures topology in TopologyOrder ==> t in TopologyOrder
  {
    if topology == "Mesh" then "Hybrid"
    else if topology == "Hybrid" then "Star"
    else topology
  }

  /** Mesh goes to Hybrid, Hybrid to Star, Star stays Star. */
  lemma TopologySteps()
    ensures DowngradeTopology("Mesh") == "Hybrid"
    ensures DowngradeTopology("Hybrid") == "Star"
    ensures DowngradeTopology("Star") == "Star"
  {
  }

  /** Two step-downs bring any known topology to Star. */
  lemma {:induction false} TwoStepsReachStar(topology: string)
    requires topology in TopologyOrder
    ensures DowngradeTopology(DowngradeTopology(topology)) == "Star"
  {
    assert topology == "Mesh" || topology == "Hybrid" || topology == "Star";
  }

  // ---------------------------------------------------------------------------
  // Stable sort by price
  // ---------------------------------------------------------------------------

  predicate SortedByPrice(s: seq<Device>) {
    forall i, j :: 0 <= i < j < |s| ==> s[i].price <= s[j].price
  }

  /** The devices of one price, in order. */
  function WithPrice(s: seq<Device>, p: real): seq<Device> {
    if s == [] then [] else (if s[0].price == p then [s[0]] else []) + WithPrice(s[1..], p)
  }

  lemma {:induction false} WithPriceAppend(s: seq<Device>, x: Device, p: real)
    ensures WithPrice(s + [x], p) == WithPrice(s, p) + (if x.price == p then [x] else [])
    decreases |s|
  {
    if s == [] {
      assert [] + [x] == [x];
    } else {
      var t := s + [x];
      assert t[0] == s[0];
      assert t[1..] == s[1..] + [x];
      var head := if s[0].price == p then [s[0]] else [];
      var tail := if x.price == p then [x] else [];
      calc {
        WithPrice(t, p);
        head + WithPrice(t[1..], p);
        head + WithPrice(s[1..] + [x], p);
        { WithPriceAppend(s[1..], x, p); }
        head + (WithPrice(s[1..], p) + tail);
        (head + WithPrice(s[1..], p)) + tail;
        WithPrice(s, p) + tail;
      }
    }
  }

  lemma {:induction false} WithPriceNone(s: seq<Device>, p: real)
    requires forall i :: 0 <= i < |s| ==> s[i].price != p
    ensures WithPrice(s, p) == []
    decreases |s|
  {
    if s != [] {
      WithPriceNone(s[1..], p);
    }
  }

  /** Insert `x` before the first strictly dearer device, so after every
      device of the same price. */
  function InsertByPrice(x: Device, s: seq<Device>): seq<Device> {
    if s == [] || x.price < s[0].price then [x] + s
    else [s[0]] + InsertByPrice(x, s[1..])
  }

  lemma {:induction false} InsertPermutes(x: Device, s: seq<Device>)
    ensures multiset(InsertByPrice(x, s)) == multiset(s) + multiset{x}
    decreases |s|
  {
    if s != [] && x.price >= s[0].price {
      InsertPermutes(x, s[1..]);
      assert s == [s[0]] + s[1..];
    }
  }

  lemma {:induction false} InsertSorted(x: Device, s: seq<Device>)
    requires SortedByPrice(s)
    ensures SortedByPrice(InsertByPrice(x, s))
    decreases |s|
  {
    if s != [] && x.price >= s[0].price {
      var rest := InsertByPrice(x, s[1..]);
      InsertSorted(x, s[1..]);
      InsertPermutes(x, s[1..]);
      forall i | 0 <= i < |rest| ensures s[0].price <= rest[i].price {
        assert rest[i] in multiset(rest);
        if rest[i] != x {
          assert rest[i] in multiset(s[1..]);
          var k :| 0 <= k < |s[1..]| && s[1..][k] == rest[i];
          assert s[k + 1] == rest[i];
        }
      }
      assert InsertByPrice(x, s) == [s[0]] + rest;
    }
  }

  lemma {:induction false} InsertStable(x: Device, s: seq<Device>, p: real)
    requires SortedByPrice(s)
    ensures WithPrice(InsertByPrice(x, s), p) == WithPrice(s, p) + (if x.price == p then [x] else [])
    decreases |s|
  {
    var r := InsertByPrice(x, s);
    if s == [] || x.price < s[0].price {
      assert r[1..] == s;
      if x.price == p {
        WithPriceNone(s, p);
      }
    } else {
      var rest := InsertByPrice(x, s[1..]);
      assert r == [s[0]] + rest && r[1..] == rest;
      InsertStable(x, s[1..], p);
    }
  }

  /** `sorted(devices, key=lambda x: x["price"])`: ascending by price, a
      permutation of the input, and stable. */
  function SortByPrice(s: seq<Device>): (r: seq<Device>)
    ensures SortedByPrice(r)
    ensures multiset(r) == multiset(s)
    ensures forall p :: WithPrice(r, p) == WithPrice(s, p)
    decreases |s|
  {
    if s == [] then []
    else
      var init := s[..|s| - 1];
      var x := s[|s| - 1];
      assert s == init + [x];
      var sortedInit := SortByPrice(init);
      InsertSorted(x, sortedInit);
      InsertPermutes(x, sortedInit);
      var r := InsertByPrice(x, sortedInit);
      assert forall p :: WithPrice(r, p) == WithPrice(s, p) by {
        forall p ensures WithPrice(r, p) == WithPrice(s, p) {
          InsertStable(x, sortedInit, p);
          WithPriceAppend(init, x, p);
        }
      }
      r
  }

  // ---------------------------------------------------------------------------
  // Model step-down
  // ---------------------------------------------------------------------------

  /** The model listed just before the first device named `current` in price
      order; the name itself when it is absent or already the cheapest. */
  function DowngradeAmong(devices: seq<Device>, current: string): (r: string)
    ensures var sorted := SortByPrice(devices);
      var idx := IndexOfModel(sorted, current);
      && (0 < idx < |sorted| ==> r == sorted[idx - 1].model)
      && (idx == 0 || current !in ModelNames(devices) ==> r == current)
    ensures r == current || r in ModelNames(devices)
  {
    var sorted := SortByPrice(devices);
    var idx := IndexOfModel(sorted, current);
    SortedMembers(devices);
    if 0 < idx < |sorted| then
      NameOfMember(devices, sorted[idx - 1]);
      NameOfMember(devices, sorted[idx]);
      sorted[idx - 1].model
    else
      current
  }

  lemma {:induction false} SortedMembers(devices: seq<Device>)
    ensures forall d :: d in SortByPrice(devices) <==> d in devices
  {
    var sorted := SortByPrice(devices);
    forall d ensures d in sorted <==> d in devices {
      assert d in sorted <==> d in multiset(sorted);
      assert d in devices <==> d in multiset(devices);
    }
  }

  lemma {:induction false} NameOfMember(devices: seq<Device>, d: Device)
    requires d in devices
    ensures d.model in ModelNames(devices)
  {
    var k :| 0 <= k < |devices| && devices[k] == d;
    assert ModelNames(devices)[k] == d.model;
  }

  /** An absent name is kept; a present one yields a catalog name no dearer
      than a device carrying the current name. */
  lemma {:induction false} DowngradeNoDearer(devices: seq<Device>, current: string)
    ensures current !in ModelNames(devices) ==> DowngradeAmong(devices, current) == current
    ensures current in ModelNames(devices) ==> DowngradeAmong(devices, current) in ModelNames(devices)
    ensures current in ModelNames(devices) ==>
      exists a, b :: a in devices && b in devices && a.model == DowngradeAmong(devices, current) &&
        b.model == current && a.price <= b.price
  {
    var sorted := SortByPrice(devices);
    var idx := IndexOfModel(sorted, current);
    SortedMembers(devices);
    if current in ModelNames(devices) {
      var k :| 0 <= k < |devices| && ModelNames(devices)[k] == current;
      assert devices[k] in sorted;
      assert idx < |sorted|;
      var b := sorted[idx];
      if 0 < idx {
        var a := sorted[idx - 1];
        NameOfMember(devices, a);
        assert a in devices && b in devices && a.price <= b.price;
      } else {
        assert b in devices && b.model == current;
      }
    } else if idx < |sorted| {
      NameOfMember(devices, sorted[idx]);
    }
  }

  /** The step-down keeps the name exactly when its first occurrence in price
      order is the cheapest device, or when it is absent. */
  lemma {:induction false} DowngradeKeepsCheapest(devices: seq<Device>, current: string)
    requires devices != []
    requires SortByPrice(devices)[0].model == current
    ensures DowngradeAmong(devices, current) == current
  {
  }

  /** `downgrade_model(vendor, category, current_model)`. */
  function DowngradeModel(loader: CatalogLoader, vendor: string, category: Category, current: string): (r: Result<string>)
    ensures r.Success? <==> GetVendorCatalog(loader, vendor).Success?
    ensures r.Failure? ==> r.error == UnsupportedVendor
    ensures r.Success? ==> r.value == DowngradeAmong(GetVendorCatalog(loader, vendor).value.Devices(category), current)
  {
    var catalog :- GetVendorCatalog(loader, vendor);
    Success(DowngradeAmong(catalog.Devices(category), current))
  }

  // ---------------------------------------------------------------------------
  // In-place modification
  // ---------------------------------------------------------------------------

  /** One router step-down inside `selected_models[key]`. */
  function DowngradeRouter(loader: CatalogLoader, d: InfraDesign, key: string, vendor: string): (r: Result<InfraDesign>)
    ensures key !in VendorKeys(d.selectedModels) ==> r == Failure(KeyError(key))
  {
    var sel :- LookupVendor(d.selectedModels, key);
    var m :- DowngradeModel(loader, vendor, Routers, sel.routerModel);
    Success(d.(selectedModels := SetRouterModel(d.selectedModels, key, m)))
  }

  /** The design after `modify_design`, together with the exception it raised,
      if any.  The writes happen one at a time, so a missing "tplink" key
      leaves the topology and the Cisco router already changed. */
  datatype Modification = Modification(design: InfraDesign, error: Option<PyError>)

  function ModifiedDesign(loader: CatalogLoader, d: InfraDesign): Modification {
    var d1 := d.(topology := DowngradeTopology(d.topology));
    match DowngradeRouter(loader, d1, "cisco", "Cisco")
    case Failure(e) => Modification(d1, Some(e))
    case Success(d2) =>
      match DowngradeRouter(loader, d2, "tplink", "TP-Link")
      case Failure(e) => Modification(d2, Some(e))
      case Success(d3) => Modification(d3, None)
  }

  /** `modify_design(infra_package)`: three assignments into the package's
      design, in order topology, Cisco router, TP-Link router. */
  method ModifyDesign(loader: CatalogLoader, pkg: InfraPackage) returns (error: Option<PyError>)
    modifies pkg
    ensures pkg.design == ModifiedDesign(loader, old(pkg.design)).design
    ensures error == ModifiedDesign(loader, old(pkg.design)).error
    ensures pkg.profile == old(pkg.profile) && pkg.scalability == old(pkg.scalability)
  {
    CiscoCatalog(loader);
    TpLinkCatalog(loader);
    pkg.design := pkg.design.(topology := DowngradeTopology(pkg.design.topology));
    ghost var d1 := pkg.design;

    var cisco := LookupVendor(pkg.design.selectedModels, "cisco");
    if cisco.Failure? {
      assert DowngradeRouter(loader, d1, "cisco", "Cisco") == Failure(cisco.error);
      return Some(cisco.error);
    }
    var ciscoRouter := DowngradeModel(loader, "Cisco", Routers, cisco.value.routerModel).value;
    pkg.design := pkg.design.(selectedModels := SetRouterModel(pkg.design.selectedModels, "cisco", ciscoRouter));
    ghost var d2 := pkg.design;
    assert DowngradeRouter(loader, d1, "cisco", "Cisco") == Success(d2);

    var tplink := LookupVendor(pkg.design.selectedModels, "tplink");
    if tplink.Failure? {
      assert DowngradeRouter(loader, d2, "tplink", "TP-Link") == Failure(tplink.error);
      return Some(tplink.error);
    }
    var tplinkRouter := DowngradeModel(loader, "TP-Link", Routers, tplink.value.routerModel).value;
    pkg.design := pkg.design.(selectedModels := SetRouterModel(pkg.design.selectedModels, "tplink", tplinkRouter));
    assert DowngradeRouter(loader, d2, "tplink", "TP-Link") == Success(pkg.design);
    return None;
  }

  /** Setting the router of one key leaves the lookup of any other key as it
      was. */
  lemma {:induction false} LookupOtherKey(entries: seq<VendorEntry>, key: string, other: string, model: string)
    requires other != key
    ensures LookupVendor(SetRouterModel(entries, key, model), other) == LookupVendor(entries, other)
    decreases |entries|
  {
    if entries != [] && entries[0].key != key {
      assert SetRouterModel(entries, key, model)[1..] == SetRouterModel(entries[1..], key, model);
      LookupOtherKey(entries[1..], key, other, model);
    }
  }

  /** The modification raises exactly when a vendor key is missing, "cisco"
      being looked up first; the catalog names it uses always resolve. */
  lemma {:induction false} ModifyErrors(loader: CatalogLoader, d: InfraDesign)
    ensures var m := ModifiedDesign(loader, d);
      && (m.error.None? <==> "cisco" in VendorKeys(d.selectedModels) && "tplink" in VendorKeys(d.selectedModels))
      && ("cisco" !in VendorKeys(d.selectedModels) ==> m.error == Some(KeyError("cisco")))
      && ("cisco" in VendorKeys(d.selectedModels) && "tplink" !in VendorKeys(d.selectedModels) ==>
            m.error == Some(KeyError("tplink")))
  {
    CiscoCatalog(loader);
    TpLinkCatalog(loader);
  }

  /** `b` differs from `a` at most in the topology and the router names. */
  predicate SameExceptRouters(a: InfraDesign, b: InfraDesign) {
    && b.components == a.components
    && b.cloud == a.cloud
    && b.redundancy == a.redundancy
    && VendorKeys(b.selectedModels) == VendorKeys(a.selectedModels)
    && |b.selectedModels| == |a.selectedModels|
    && forall i :: 0 <= i < |a.selectedModels| ==>
         b.selectedModels[i].models == a.selectedModels[i].models.(routerModel := b.selectedModels[i].models.routerModel)
  }

  lemma {:induction false} SameExceptRoutersTrans(a: InfraDesign, b: InfraDesign, c: InfraDesign)
    requires SameExceptRouters(a, b) && SameExceptRouters(b, c)
    ensures SameExceptRouters(a, c)
  {
    forall i | 0 <= i < |a.selectedModels|
      ensures c.selectedModels[i].models == a.selectedModels[i].models.(routerModel := c.selectedModels[i].models.routerModel)
    {
      assert b.selectedModels[i].models == a.selectedModels[i].models.(routerModel := b.selectedModels[i].models.routerModel);
    }
  }

  /** One router step-down keeps the topology, changes only router names, and
      stores the stepped-down name under its key. */
  lemma {:induction false} DowngradeRouterShape(loader: CatalogLoader, d: InfraDesign, key: string, vendor: string)
    requires DowngradeRouter(loader, d, key, vendor).Success?
    ensures var r := DowngradeRouter(loader, d, key, vendor).value;
      && r.topology == d.topology
      && SameExceptRouters(d, r)
      && LookupVendor(r.selectedModels, key) == Success(LookupVendor(d.selectedModels, key).value.(routerModel :=
           DowngradeModel(loader, vendor, Routers, LookupVendor(d.selectedModels, key).value.routerModel).value))
  {
  }

  /** Only the topology and the router names change: counts, cloud split,
      redundancy, vendor keys and every other model name are untouched. */
  lemma {:induction false} ModifyChangesOnlyTopologyAndRouters(loader: CatalogLoader, d: InfraDesign)
    ensures ModifiedDesign(loader, d).design.topology == DowngradeTopology(d.topology)
    ensures SameExceptRouters(d, ModifiedDesign(loader, d).design)
  {
    var d1 := d.(topology := DowngradeTopology(d.topology));
    assert VendorKeys(d1.selectedModels) == VendorKeys(d.selectedModels);
    assert SameExceptRouters(d, d1);
    var r1 := DowngradeRouter(loader, d1, "cisco", "Cisco");
    if r1.Success? {
      DowngradeRouterShape(loader, d1, "cisco", "Cisco");
      SameExceptRoutersTrans(d, d1, r1.value);
      var r2 := DowngradeRouter(loader, r1.value, "tplink", "TP-Link");
      if r2.Success? {
        DowngradeRouterShape(loader, r1.value, "tplink", "TP-Link");
        SameExceptRoutersTrans(d, r1.value, r2.value);
      }
    }
  }

  /** After a complete modification each vendor's router is the step-down of
      its previous name in that vendor's router list, hence a catalog model
      when the previous one was. */
  lemma {:induction false} ModifiedRoutersInCatalog(loader: CatalogLoader, d: InfraDesign)
    requires "cisco" in VendorKeys(d.selectedModels) && "tplink" in VendorKeys(d.selectedModels)
    requires LookupVendor(d.selectedModels, "cisco").value.routerModel in ModelNames(loader.cisco.routers)
    requires LookupVendor(d.selectedModels, "tplink").value.routerModel in ModelNames(loader.tplink.routers)
    ensures ModifiedDesign(loader, d).error.None?
    ensures var m := ModifiedDesign(loader, d).design;
      && LookupVendor(m.selectedModels, "cisco").Success?
      && LookupVendor(m.selectedModels, "tplink").Success?
      && LookupVendor(m.selectedModels, "cisco").value.routerModel ==
           DowngradeAmong(loader.cisco.routers, LookupVendor(d.selectedModels, "cisco").value.routerModel)
      && LookupVendor(m.selectedModels, "tplink").value.routerModel ==
           DowngradeAmong(loader.tplink.routers, LookupVendor(d.selectedModels, "tplink").value.routerModel)
      && LookupVendor(m.selectedModels, "cisco").value.routerModel in ModelNames(loader.cisco.routers)
      && LookupVendor(m.selectedModels, "tplink").value.routerModel in ModelNames(loader.tplink.routers)
  {
    CiscoCatalog(loader);
    TpLinkCatalog(loader);
    ModifyErrors(loader, d);
    var d1 := d.(topology := DowngradeTopology(d.topology));
    assert VendorKeys(d1.selectedModels) == VendorKeys(d.selectedModels);
    var d2 := DowngradeRouter(loader, d1, "cisco", "Cisco").value;
    DowngradeRouterShape(loader, d1, "cisco", "Cisco");
    var ciscoRouter := DowngradeAmong(loader.cisco.routers, LookupVendor(d.selectedModels, "cisco").value.routerModel);
    LookupOtherKey(d1.selectedModels, "cisco", "tplink", ciscoRouter);
    var d3 := DowngradeRouter(loader, d2, "tplink", "TP-Link").value;
    DowngradeRouterShape(loader, d2, "tplink", "TP-Link");
    var tplinkRouter := DowngradeAmong(loader.tplink.routers, LookupVendor(d.selectedModels, "tplink").value.routerModel);
    LookupOtherKey(d2.selectedModels, "tplink", "cisco", tplinkRouter);
    DowngradeNoDearer(loader.cisco.routers, LookupVendor(d.selectedModels, "cisco").value.routerModel);
    DowngradeNoDearer(loader.tplink.routers, LookupVendor(d.selectedModels, "tplink").value.routerModel);
  }
}
