/** The deployment estimate of agents/deployment_agent.py: cabling, racks,
    labour and power from the device counts, and the project total from the
    Cisco hardware cost. */
module Deployment {
  import opened Numeric
  import opened Model
  import opened Costing

  datatype DeploymentEstimate = DeploymentEstimate(
    cableLengthMeters: int,
    cableType: string,
    rackUnitsRequired: int,
    racksRequired: int,
    labourHours: int,
    labourCost: int,
    estimatedPowerKw: real,
    ciscoHardwareCost: real,
    tplinkHardwareCost: real,
    totalProjectCost: real)

  /** Routers, switches, access points and firewalls; IDS appliances are not
      counted. */
  function TotalDevices(c: Components): int {
    c.routers + c.switches + c.accessPoints + c.firewalls
  }

  /** `estimate(infra_package, cost_output)`. */
  function Estimate(pkg: PackageValue, costs: CostComparison): (e: DeploymentEstimate)
    ensures var n := TotalDevices(pkg.design.components);
      && e.cableLengthMeters == 30 * n
      && (e.cableType == "Fiber" <==> pkg.profile.officeSizeSqft > 10000)
      && (e.cableType == "Cat6" <==> pkg.profile.officeSizeSqft <= 10000)
      && e.rackUnitsRequired == 2 * n
      && 42 * e.racksRequired >= e.rackUnitsRequired
      && 42 * (e.racksRequired - 1) < e.rackUnitsRequired
      && e.labourCost == 1500 * e.labourHours && e.labourHours == 4 * n
      && e.estimatedPowerKw * 2.0 == n as real
      && e.totalProjectCost == costs.ciscoTotalCost + e.labourCost as real
      && e.ciscoHardwareCost == costs.ciscoTotalCost && e.tplinkHardwareCost == costs.tplinkTotalCost
  {
    var components := pkg.design.components;
    var sqft := pkg.profile.officeSizeSqft;
    var avgCablePerDevice := 30;
    var totalDevices := TotalDevices(components);
    var cableLength := totalDevices * avgCablePerDevice;
    var cableType := if sqft > 10000 then "Fiber" else "Cat6";
    var rackUnits := totalDevices * 2;
    var racksRequired := CeilDiv(rackUnits, 42);
    var labourHours := totalDevices * 4;
    var labourCost := labourHours * 1500;
    var estimatedPowerKw := totalDevices as real * 0.5;
    DeploymentEstimate(cableLength, cableType, rackUnits, racksRequired, labourHours, labourCost,
      estimatedPowerKw, costs.ciscoTotalCost, costs.tplinkTotalCost,
      costs.ciscoTotalCost + labourCost as real)
  }

  /** The number of IDS appliances does not change the estimate. */
  lemma IdsExcluded(pkg: PackageValue, costs: CostComparison, ids: int)
    ensures Estimate(pkg.(design := pkg.design.(components := pkg.design.components.(idsSystems := ids))), costs)
         == Estimate(pkg, costs)
  {
  }

  /** The TP-Link cost is reported but not added: two cost outputs that agree
      on the Cisco total give the same project total. */
  lemma TplinkNotAdded(pkg: PackageValue, c1: CostComparison, c2: CostComparison)
    requires c1.ciscoTotalCost == c2.ciscoTotalCost
    ensures Estimate(pkg, c1).totalProjectCost == Estimate(pkg, c2).totalProjectCost
    ensures Estimate(pkg, c1).(tplinkHardwareCost := 0.0) == Estimate(pkg, c2).(tplinkHardwareCost := 0.0)
  {
  }

  /** Up to 21 devices fit one rack; the 22nd opens a second one. */
  lemma {:induction false} RackBoundary(pkg: PackageValue, costs: CostComparison)
    ensures 1 <= TotalDevices(pkg.design.components) <= 21 ==> Estimate(pkg, costs).racksRequired == 1
    ensures 22 <= TotalDevices(pkg.design.components) <= 42 ==> Estimate(pkg, costs).racksRequired == 2
  {
  }
}
