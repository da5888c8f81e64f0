/** The risk scorer of agents/security_agent.py: one score per vendor key of
    `selected_models`, from a base of 50 adjusted by the security tier, the
    deployed firewall and IDS, and the vendor, clamped to [0, 100]. */
module Security {
  import opened Model

  /** The adjustments before the clamp, in the order the loop body applies
      them. */
  function RawRisk(securityLevel: string, comps: Components, vendorKey: string): int {
    50
    - (if securityLevel == "High" then 10 else if securityLevel == "Medium" then 5 else 0)
    - (if comps.firewalls > 0 then 10 else 0)
    - (if comps.idsSystems > 0 then 10 else 0)
    + (if vendorKey == "cisco" then -10 else 5)
  }

  /** `max(0, min(100, risk))`. */
  function Clamp(risk: int): (r: int)
    ensures 0 <= r <= 100
    ensures 0 <= risk <= 100 ==> r == risk
    ensures risk < 0 ==> r == 0
    ensures risk > 100 ==> r == 100
  {
    if risk < 0 then 0 else if risk > 100 then 100 else risk
  }

  /** The risk of one vendor key. */
  function VendorRisk(securityLevel: string, comps: Components, vendorKey: string): int {
    Clamp(RawRisk(securityLevel, comps, vendorKey))
  }

  /** The unclamped risk already lies in [10, 55], so the clamp never binds. */
  lemma ClampNeverBinds(securityLevel: string, comps: Components, vendorKey: string)
    ensures 10 <= RawRisk(securityLevel, comps, vendorKey) <= 55
    ensures VendorRisk(securityLevel, comps, vendorKey) == RawRisk(securityLevel, comps, vendorKey)
  {
  }

  /** For the same design, "cisco" scores exactly 15 below any other key. */
  lemma CiscoFifteenBelow(securityLevel: string, comps: Components, other: string)
    requires other != "cisco"
    ensures VendorRisk(securityLevel, comps, "cisco") + 15 == VendorRisk(securityLevel, comps, other)
  {
  }

  /** The tier's rank: High protects most, then Medium, then anything else. */
  function TierRank(securityLevel: string): int {
    if securityLevel == "High" then 2 else if securityLevel == "Medium" then 1 else 0
  }

  /** Deploying a firewall or an IDS, or raising the tier, never raises risk. */
  lemma RiskMonotone(level1: string, level2: string, c1: Components, c2: Components, vendorKey: string)
    requires TierRank(level1) <= TierRank(level2)
    requires c1.firewalls > 0 ==> c2.firewalls > 0
    requires c1.idsSystems > 0 ==> c2.idsSystems > 0
    ensures VendorRisk(level2, c2, vendorKey) <= VendorRisk(level1, c1, vendorKey)
  {
  }

  /** `calculate_risk`: the loop over the keys of `selected_models`, each
      computing its risk by successive adjustments and storing it under the
      key. */
  method CalculateRisk(pkg: PackageValue) returns (results: map<string, int>)
    ensures results.Keys == set k | k in VendorKeys(pkg.design.selectedModels)
    ensures forall k :: k in results ==>
      results[k] == VendorRisk(pkg.profile.securityLevel, pkg.design.components, k)
  {
    var infra := pkg.design;
    var company := pkg.profile;
    var keys := VendorKeys(infra.selectedModels);
    results := map[];
    var i := 0;
    while i < |keys|
      invariant 0 <= i <= |keys|
      invariant results.Keys == set k | k in keys[..i]
      invariant forall k :: k in results ==> results[k] == VendorRisk(company.securityLevel, infra.components, k)
    {
      var vendor := keys[i];
      var risk := 50;
      if company.securityLevel == "High" {
        risk := risk - 10;
      } else if company.securityLevel == "Medium" {
        risk := risk - 5;
      }
      if infra.components.firewalls > 0 {
        risk := risk - 10;
      }
      if infra.components.idsSystems > 0 {
        risk := risk - 10;
      }
      if vendor == "cisco" {
        risk := risk - 10;
      } else {
        risk := risk + 5;
      }
      results := results[vendor := if risk < 0 then 0 else if 100 < risk then 100 else risk];
      assert keys[..i + 1] == keys[..i] + [vendor];
      i := i + 1;
    }
    assert keys[..i] == keys;
  }
}
