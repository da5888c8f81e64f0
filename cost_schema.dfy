/** `transform_input_schema` of agents/llm_cost_analysis_agent.py: reshapes a
    package dict into the input of the cost analysis, renaming the component
    keys and filling in defaults for every missing key.  A key that may be
    missing from the input dict is an `Option` here. */
module InputSchema {
  import opened Common

  datatype RawComponents = RawComponents(
    routers: Option<int>,
    switches: Option<int>,
    accessPoints: Option<int>,
    firewalls: Option<int>,
    idsSystems: Option<int>)

  datatype RawRedundancy = RawRedundancy(enabled: Option<bool>)

  datatype RawInfra = RawInfra(components: Option<RawComponents>, redundancy: Option<RawRedundancy>)

  datatype RawCompany = RawCompany(securityLevel: Option<string>, budget: Option<real>)

  /** The input dict; `V` is whatever a vendor option holds, passed through. */
  datatype RawInput<V> = RawInput(
    companyProfile: Option<RawCompany>,
    infrastructureDesign: Option<RawInfra>,
    vendorOptions: Option<seq<V>>)

  /** The renamed device counts. */
  datatype DeviceCounts = DeviceCounts(routerBasic: int, switch24: int, accessPoint: int, firewall: int, ids: int)

  datatype ArchitectureInput = ArchitectureInput(
    devices: DeviceCounts,
    securityLevel: string,
    redundancy: bool,
    ids: bool)

  datatype CostInput<V> = CostInput(architecture: ArchitectureInput, vendorOptions: seq<V>, budget: real)

  /** `d.get(key, default)`. */
  function Get<T>(o: Option<T>, default: T): (v: T)
    ensures o.Some? ==> v == o.value
    ensures o.None? ==> v == default
  {
    match o
    case Some(x) => x
    case None => default
  }

  const EmptyComponents := RawComponents(None, None, None, None, None)
  const EmptyInfra := RawInfra(None, None)
  const EmptyCompany := RawCompany(None, None)

  /** `transform_input_schema(raw_input)`.  The ensures follow the `.get`
      chains key by key; what a caller relies on, the defaults for an empty
      input and the renaming of a complete one, is stated by the lemmas
      EmptyInputDefaults and FullInputRenamed below. */
  function TransformInputSchema<V>(raw: RawInput<V>): (out: CostInput<V>)
    ensures var infra := Get(raw.infrastructureDesign, EmptyInfra);
      var comps := Get(infra.components, EmptyComponents);
      && out.architecture.devices == DeviceCounts(
           Get(comps.routers, 0), Get(comps.switches, 0), Get(comps.accessPoints, 0),
           Get(comps.firewalls, 0), Get(comps.idsSystems, 0))
      && out.architecture.redundancy == Get(Get(infra.redundancy, RawRedundancy(None)).enabled, false)
    ensures out.architecture.ids <==> out.architecture.devices.ids > 0
    ensures out.architecture.securityLevel == Get(Get(raw.companyProfile, EmptyCompany).securityLevel, "Medium")
    ensures out.budget == Get(Get(raw.companyProfile, EmptyCompany).budget, 0.0)
    ensures out.vendorOptions == Get(raw.vendorOptions, [])
  {
    var company := Get(raw.companyProfile, EmptyCompany);
    var infra := Get(raw.infrastructureDesign, EmptyInfra);
    var vendorsRaw := Get(raw.vendorOptions, []);
    var components := Get(infra.components, EmptyComponents);
    var devices := DeviceCounts(
      Get(components.routers, 0),
      Get(components.switches, 0),
      Get(components.accessPoints, 0),
      Get(components.firewalls, 0),
      Get(components.idsSystems, 0));
    CostInput(
      ArchitectureInput(
        devices,
        Get(company.securityLevel, "Medium"),
        Get(Get(infra.redundancy, RawRedundancy(None)).enabled, false),
        devices.ids > 0),
      vendorsRaw,
      Get(company.budget, 0.0))
  }

  /** An empty input dict gives all the defaults. */
  lemma EmptyInputDefaults<V>()
    ensures TransformInputSchema<V>(RawInput(None, None, None)) ==
      CostInput(ArchitectureInput(DeviceCounts(0, 0, 0, 0, 0), "Medium", false, false), [], 0.0)
  {
  }

  /** A full input is copied field for field under the new names. */
  lemma {:induction false} FullInputRenamed<V>(r: int, s: int, a: int, f: int, i: int, enabled: bool,
                                               level: string, budget: real, vendors: seq<V>)
    ensures TransformInputSchema(RawInput(
        Some(RawCompany(Some(level), Some(budget))),
        Some(RawInfra(Some(RawComponents(Some(r), Some(s), Some(a), Some(f), Some(i))), Some(RawRedundancy(Some(enabled))))),
        Some(vendors))) ==
      CostInput(ArchitectureInput(DeviceCounts(r, s, a, f, i), level, enabled, i > 0), vendors, budget)
  {
  }
}
