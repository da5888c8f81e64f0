/** The deterministic part of `design` in agents/architecture_agent.py: device
    counts from headcount, office area and security tier, and the assembly of the
    design from them and the oracle's (validated) model choice. */
module Architecture {
  import opened Common
  import opened Numeric
  import opened Catalog
  import opened Model
  import opened SelectionValidator

  /** What the model-selection oracle returns: an untrusted topology and, per
      vendor, an untrusted dict of model names. */
  datatype OracleSelection = OracleSelection(
    topology: string,
    ciscoModels: map<string, string>,
    tplinkModels: map<string, string>)

  /** Firewalls are deployed at the Medium and High tiers. */
  predicate GuardedTier(level: string) {
    level == "Medium" || level == "High"
  }

  /** The count formulas: each router serves 150 users, each switch 48, each
      access point covers 1500 sqft, with floors of one router, one switch and
      two access points; the firewall and IDS counts are gates on the tier. */
  function Sizing(numUsers: int, officeSqft: int, securityLevel: string): (c: Components)
    ensures c.routers >= 1 && 150 * c.routers >= numUsers && (c.routers == 1 || 150 * (c.routers - 1) < numUsers)
    ensures c.switches >= 1 && 48 * c.switches >= numUsers && (c.switches == 1 || 48 * (c.switches - 1) < numUsers)
    ensures c.accessPoints >= 2 && 1500 * c.accessPoints >= officeSqft
    ensures c.accessPoints == 2 || 1500 * (c.accessPoints - 1) < officeSqft
    ensures c.firewalls == (if GuardedTier(securityLevel) then 1 else 0)
    ensures c.idsSystems == (if securityLevel == "High" then 1 else 0)
  {
    Components(
      Max(1, CeilDiv(numUsers, 150)),
      Max(1, CeilDiv(numUsers, 48)),
      Max(2, CeilDiv(officeSqft, 1500)),
      if GuardedTier(securityLevel) then 1 else 0,
      if securityLevel == "High" then 1 else 0)
  }

  /** An IDS is never deployed without a firewall. */
  lemma IdsImpliesFirewall(numUsers: int, officeSqft: int, securityLevel: string)
    ensures Sizing(numUsers, officeSqft, securityLevel).idsSystems <= Sizing(numUsers, officeSqft, securityLevel).firewalls
  {
  }

  /** More employees never mean fewer routers or switches; a larger office
      never means fewer access points. */
  lemma SizingMonotone(n1: int, n2: int, a1: int, a2: int, level: string)
    requires n1 <= n2 && a1 <= a2
    ensures Sizing(n1, a1, level).routers <= Sizing(n2, a2, level).routers
    ensures Sizing(n1, a1, level).switches <= Sizing(n2, a2, level).switches
    ensures Sizing(n1, a1, level).accessPoints <= Sizing(n2, a2, level).accessPoints
  {
  }

  /** 120 employees in 6000 sqft at the High tier. */
  lemma ScenarioHighTier()
    ensures Sizing(120, 6000, "High") == Components(1, 3, 4, 1, 1)
  {
  }

  /** `design`: the counts, redundancy flags and server split computed from the
      profile, the topology copied from the oracle as it is, and each vendor's
      models passed through the validator (Cisco first). */
  function Design(loader: CatalogLoader, profile: CompanyProfile, oracle: OracleSelection): (r: Result<InfraDesign>)
    ensures r.Success? <==>
      ValidateVendorSelection(loader, "Cisco", oracle.ciscoModels).Success? &&
      ValidateVendorSelection(loader, "TP-Link", oracle.tplinkModels).Success?
    ensures r.Success? ==> r.value.topology == oracle.topology
    ensures r.Success? ==> r.value.components == Sizing(profile.numEmployees, profile.officeSizeSqft, profile.securityLevel)
    ensures r.Success? ==> r.value.selectedModels == [
      VendorEntry("cisco", ValidateVendorSelection(loader, "Cisco", oracle.ciscoModels).value),
      VendorEntry("tplink", ValidateVendorSelection(loader, "TP-Link", oracle.tplinkModels).value)]
    ensures r.Failure? && ValidateVendorSelection(loader, "Cisco", oracle.ciscoModels).Failure? ==>
      r.error == ValidateVendorSelection(loader, "Cisco", oracle.ciscoModels).error
    ensures r.Failure? && ValidateVendorSelection(loader, "Cisco", oracle.ciscoModels).Success? ==>
      r.error == ValidateVendorSelection(loader, "TP-Link", oracle.tplinkModels).error
  {
    var level := profile.securityLevel;
    var pref := profile.cloudPreference;
    var cisco :- ValidateVendorSelection(loader, "Cisco", oracle.ciscoModels);
    var tplink :- ValidateVendorSelection(loader, "TP-Link", oracle.tplinkModels);
    Success(InfraDesign(
      oracle.topology,
      Sizing(profile.numEmployees, profile.officeSizeSqft, level),
      CloudArchitecture(
        pref,
        if pref == "Cloud" || pref == "Hybrid" then 2 else 0,
        if pref == "On-Prem" || pref == "Hybrid" then 2 else 0),
      Redundancy(GuardedTier(level), level == "High"),
      [VendorEntry("cisco", cisco), VendorEntry("tplink", tplink)]))
  }

  /** The flags and the server split of a built design: dual ISP only with
      redundancy enabled, two cloud servers for Cloud or Hybrid, two on-premises
      servers for On-Prem or Hybrid, none otherwise. */
  lemma {:induction false} DesignFlags(loader: CatalogLoader, profile: CompanyProfile, oracle: OracleSelection)
    requires Design(loader, profile, oracle).Success?
    ensures var d := Design(loader, profile, oracle).value;
      var pref := profile.cloudPreference;
      && (d.redundancy.dualIsp ==> d.redundancy.enabled)
      && (d.redundancy.dualIsp <==> profile.securityLevel == "High")
      && (d.cloud.cloudServers == 2 <==> pref == "Cloud" || pref == "Hybrid")
      && (d.cloud.onPremServers == 2 <==> pref == "On-Prem" || pref == "Hybrid")
      && d.cloud.cloudServers in {0, 2} && d.cloud.onPremServers in {0, 2}
      && d.cloud.model == pref
  {
  }

  /** Every model name of a built design is a member of its vendor's catalog. */
  lemma {:induction false} DesignModelsInCatalog(loader: CatalogLoader, profile: CompanyProfile, oracle: OracleSelection)
    requires Design(loader, profile, oracle).Success?
    ensures var d := Design(loader, profile, oracle).value;
      && InCatalog(d.selectedModels[0].models, loader.cisco)
      && InCatalog(d.selectedModels[1].models, loader.tplink)
  {
    CiscoCatalog(loader);
    TpLinkCatalog(loader);
  }
}
