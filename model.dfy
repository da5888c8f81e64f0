/** The `infra_package` that the agents pass around: the company profile, the
    infrastructure design and the scalability projection.  The package is the one
    object the pipeline updates in place (through the design downgrader), so it is
    a class; every agent reads a snapshot of it as a value. */
module Model {
  import opened Common

  /** The six fields copied from the user's input. */
  datatype CompanyProfile = CompanyProfile(
    numEmployees: int,
    officeSizeSqft: int,
    securityLevel: string,
    growthRatePercent: real,
    cloudPreference: string,
    budget: real)

  datatype Components = Components(
    routers: int,
    switches: int,
    accessPoints: int,
    firewalls: int,
    idsSystems: int)

  datatype Redundancy = Redundancy(enabled: bool, dualIsp: bool)

  datatype CloudArchitecture = CloudArchitecture(model: string, cloudServers: int, onPremServers: int)

  /** The four model names chosen for one vendor. */
  datatype Selection = Selection(
    routerModel: string,
    switchModel: string,
    accessPointModel: string,
    firewallModel: string)

  /** One item of the `selected_models` dict, which keeps insertion order. */
  datatype VendorEntry = VendorEntry(key: string, models: Selection)

  datatype InfraDesign = InfraDesign(
    topology: string,
    components: Components,
    cloud: CloudArchitecture,
    redundancy: Redundancy,
    selectedModels: seq<VendorEntry>)

  /** The one field of the scalability projection that the model reads. */
  datatype Scalability = Scalability(year3Users: int)

  datatype PackageValue = PackageValue(
    profile: CompanyProfile,
    design: InfraDesign,
    scalability: Scalability)

  function VendorKeys(entries: seq<VendorEntry>): (keys: seq<string>)
    ensures |keys| == |entries|
    ensures forall i :: 0 <= i < |entries| ==> keys[i] == entries[i].key
  {
    seq(|entries|, i requires 0 <= i < |entries| => entries[i].key)
  }

  /** `selected_models[key]`. */
  function LookupVendor(entries: seq<VendorEntry>, key: string): (r: Result<Selection>)
    ensures r.Success? <==> key in VendorKeys(entries)
    ensures r.Failure? ==> r.error == KeyError(key)
    ensures r.Success? ==> VendorEntry(key, r.value) in entries
  {
    if entries == [] then Failure(KeyError(key))
    else if entries[0].key == key then Success(entries[0].models)
    else
      var r := LookupVendor(entries[1..], key);
      assert VendorKeys(entries) == [entries[0].key] + VendorKeys(entries[1..]);
      r
  }

  /** `selected_models[key]["router_model"] = model`, on the first entry with
      that key; the dict has at most one. */
  function SetRouterModel(entries: seq<VendorEntry>, key: string, model: string): (r: seq<VendorEntry>)
    ensures |r| == |entries|
    ensures VendorKeys(r) == VendorKeys(entries)
    ensures forall i :: 0 <= i < |entries| ==>
      r[i].models == entries[i].models.(routerModel := r[i].models.routerModel)
    ensures forall i :: 0 <= i < |entries| && entries[i].key != key ==> r[i] == entries[i]
    ensures key in VendorKeys(entries) ==> LookupVendor(r, key) == Success(LookupVendor(entries, key).value.(routerModel := model))
  {
    if entries == [] then []
    else if entries[0].key == key then [entries[0].(models := entries[0].models.(routerModel := model))] + entries[1..]
    else [entries[0]] + SetRouterModel(entries[1..], key, model)
  }

  /** The package object; `design` is the part that `modify_design` mutates. */
  class InfraPackage {
    var profile: CompanyProfile
    var design: InfraDesign
    var scalability: Scalability

    constructor (v: PackageValue)
      ensures Value() == v
    {
      profile := v.profile;
      design := v.design;
      scalability := v.scalability;
    }

    /** The package as a value, which is what `copy.deepcopy` yields. */
    function Value(): PackageValue
      reads this
    {
      PackageValue(profile, design, scalability)
    }
  }
}
