/** The selection validator of utils/selection_validator.py: it turns the
    untrusted model names proposed by the selection oracle into catalog members,
    substituting the highest-capacity entry of a category for any name that is
    not in it. */
module SelectionValidator {
  import opened Common
  import opened Catalog
  import opened Model

  /** The attribute `get_highest_capacity` compares. */
  datatype CapacityKey = MaxUsersSupported | MaxDevicesSupported

  function Capacity(d: Device, key: CapacityKey): int {
    match key
    case MaxUsersSupported => d.maxUsersSupported
    case MaxDevicesSupported => d.maxDevicesSupported
  }

  /** The position `max(devices, key=...)` picks: a maximal element, and the
      first one among equals, since `max` replaces its candidate only on a
      strictly larger key. */
  function HighestCapacityIndex(devices: seq<Device>, key: CapacityKey): (i: nat)
    requires devices != []
    ensures i < |devices|
    ensures forall j :: 0 <= j < |devices| ==> Capacity(devices[j], key) <= Capacity(devices[i], key)
    ensures forall j :: 0 <= j < i ==> Capacity(devices[j], key) < Capacity(devices[i], key)
    decreases |devices|
  {
    if |devices| == 1 then 0
    else
      var last := |devices| - 1;
      var i := HighestCapacityIndex(devices[..last], key);
      if Capacity(devices[last], key) > Capacity(devices[i], key) then last else i
  }

  /** `get_highest_capacity`: the model name of that element; `max` of an empty
      list raises ValueError. */
  function GetHighestCapacity(devices: seq<Device>, key: CapacityKey): (r: Result<string>)
    ensures r.Failure? <==> devices == []
    ensures r.Failure? ==> r.error == EmptyMaxArg
    ensures r.Success? ==> r.value in ModelNames(devices)
    ensures r.Success? ==> r.value == devices[HighestCapacityIndex(devices, key)].model
  {
    if devices == [] then Failure(EmptyMaxArg)
    else
      var i := HighestCapacityIndex(devices, key);
      assert ModelNames(devices)[i] == devices[i].model;
      Success(devices[i].model)
  }

  /** One category: `selected[field]` (KeyError when absent) is kept if it names
      a device of the category, and replaced by the highest-capacity model
      otherwise. */
  function ValidateField(devices: seq<Device>, selected: map<string, string>, field: string, key: CapacityKey): (r: Result<string>)
    ensures field !in selected ==> r == Failure(KeyError(field))
    ensures field in selected && selected[field] in ModelNames(devices) ==> r == Success(selected[field])
    ensures field in selected && selected[field] !in ModelNames(devices) ==> r == GetHighestCapacity(devices, key)
    ensures r.Success? ==> r.value in ModelNames(devices)
  {
    if field !in selected then Failure(KeyError(field))
    else if selected[field] in ModelNames(devices) then Success(selected[field])
    else GetHighestCapacity(devices, key)
  }

  const RouterField := "router_model"
  const SwitchField := "switch_model"
  const AccessPointField := "access_point_model"
  const FirewallField := "firewall_model"

  /** Every name of a selection belongs to its category of the catalog. */
  predicate InCatalog(sel: Selection, catalog: VendorCatalog) {
    && sel.routerModel in ModelNames(catalog.routers)
    && sel.switchModel in ModelNames(catalog.switches)
    && sel.accessPointModel in ModelNames(catalog.accessPoints)
    && sel.firewallModel in ModelNames(catalog.firewalls)
  }

  /** A validated selection written back as the dict the validator returns. */
  function AsMap(sel: Selection): (m: map<string, string>)
    ensures m.Keys == {RouterField, SwitchField, AccessPointField, FirewallField}
    ensures m[RouterField] == sel.routerModel && m[SwitchField] == sel.switchModel
    ensures m[AccessPointField] == sel.accessPointModel && m[FirewallField] == sel.firewallModel
  {
    map[RouterField := sel.routerModel, SwitchField := sel.switchModel,
        AccessPointField := sel.accessPointModel, FirewallField := sel.firewallModel]
  }

  /** `validate_vendor_selection`: the four categories in order router, switch,
      access point, firewall; the result holds exactly these four names and
      every other input key is dropped. */
  function ValidateVendorSelection(loader: CatalogLoader, vendorName: string, selected: map<string, string>): (r: Result<Selection>)
    ensures r.Success? ==> GetVendorCatalog(loader, vendorName).Success?
    ensures r.Success? ==> InCatalog(r.value, GetVendorCatalog(loader, vendorName).value)
  {
    var catalog :- GetVendorCatalog(loader, vendorName);
    var router :- ValidateField(catalog.routers, selected, RouterField, MaxUsersSupported);
    var switch :- ValidateField(catalog.switches, selected, SwitchField, MaxDevicesSupported);
    var ap :- ValidateField(catalog.accessPoints, selected, AccessPointField, MaxUsersSupported);
    var fw :- ValidateField(catalog.firewalls, selected, FirewallField, MaxUsersSupported);
    Success(Selection(router, switch, ap, fw))
  }

  /** A field fails only when its key is missing, or when its name is invalid
      and its category is empty (nothing for `max` to choose from). */
  predicate FieldFails(devices: seq<Device>, selected: map<string, string>, field: string) {
    field !in selected || (selected[field] !in ModelNames(devices) && devices == [])
  }

  /** Validation raises exactly when the vendor is unknown or some field fails;
      in particular a supplied selection whose four names are all in a
      non-empty catalog is accepted. */
  lemma ValidationFailsExactly(loader: CatalogLoader, vendorName: string, selected: map<string, string>)
    ensures var r := ValidateVendorSelection(loader, vendorName, selected);
      r.Failure? <==>
        (GetVendorCatalog(loader, vendorName).Failure? ||
         var c := GetVendorCatalog(loader, vendorName).value;
         FieldFails(c.routers, selected, RouterField) || FieldFails(c.switches, selected, SwitchField) ||
         FieldFails(c.accessPoints, selected, AccessPointField) || FieldFails(c.firewalls, selected, FirewallField))
  {
  }

  /** A name already in the catalog is kept, and an invalid one becomes the
      first maximal entry: by `max_users_supported` for routers, access points
      and firewalls, by `max_devices_supported` for switches. */
  lemma {:induction false} ValidatedFields(loader: CatalogLoader, vendorName: string, selected: map<string, string>)
    requires ValidateVendorSelection(loader, vendorName, selected).Success?
    ensures var sel := ValidateVendorSelection(loader, vendorName, selected).value;
      var c := GetVendorCatalog(loader, vendorName).value;
      && (selected[RouterField] in ModelNames(c.routers) ==> sel.routerModel == selected[RouterField])
      && (selected[RouterField] !in ModelNames(c.routers) ==>
            sel.routerModel == c.routers[HighestCapacityIndex(c.routers, MaxUsersSupported)].model)
      && (selected[SwitchField] in ModelNames(c.switches) ==> sel.switchModel == selected[SwitchField])
      && (selected[SwitchField] !in ModelNames(c.switches) ==>
            sel.switchModel == c.switches[HighestCapacityIndex(c.switches, MaxDevicesSupported)].model)
      && (selected[AccessPointField] in ModelNames(c.accessPoints) ==> sel.accessPointModel == selected[AccessPointField])
      && (selected[AccessPointField] !in ModelNames(c.accessPoints) ==>
            sel.accessPointModel == c.accessPoints[HighestCapacityIndex(c.accessPoints, MaxUsersSupported)].model)
      && (selected[FirewallField] in ModelNames(c.firewalls) ==> sel.firewallModel == selected[FirewallField])
      && (selected[FirewallField] !in ModelNames(c.firewalls) ==>
            sel.firewallModel == c.firewalls[HighestCapacityIndex(c.firewalls, MaxUsersSupported)].model)
  {
    ValidationFailsExactly(loader, vendorName, selected);
  }

  /** Validating an already validated selection returns it unchanged. */
  lemma {:induction false} ValidationIdempotent(loader: CatalogLoader, vendorName: string, selected: map<string, string>)
    requires ValidateVendorSelection(loader, vendorName, selected).Success?
    ensures var sel := ValidateVendorSelection(loader, vendorName, selected).value;
      ValidateVendorSelection(loader, vendorName, AsMap(sel)) == Success(sel)
  {
    var sel := ValidateVendorSelection(loader, vendorName, selected).value;
    var m := AsMap(sel);
    assert m[RouterField] == sel.routerModel && m[SwitchField] == sel.switchModel;
    assert m[AccessPointField] == sel.accessPointModel && m[FirewallField] == sel.firewallModel;
  }

  /** Categories are independent: two inputs that agree on one field give the
      same output for that field. */
  lemma {:induction false} FieldsIndependent(loader: CatalogLoader, vendorName: string, s1: map<string, string>, s2: map<string, string>)
    requires ValidateVendorSelection(loader, vendorName, s1).Success?
    requires ValidateVendorSelection(loader, vendorName, s2).Success?
    ensures var a, b := ValidateVendorSelection(loader, vendorName, s1).value, ValidateVendorSelection(loader, vendorName, s2).value;
      && (s1[RouterField] == s2[RouterField] ==> a.routerModel == b.routerModel)
      && (s1[SwitchField] == s2[SwitchField] ==> a.switchModel == b.switchModel)
      && (s1[AccessPointField] == s2[AccessPointField] ==> a.accessPointModel == b.accessPointModel)
      && (s1[FirewallField] == s2[FirewallField] ==> a.firewallModel == b.firewallModel)
  {
    ValidatedFields(loader, vendorName, s1);
    ValidatedFields(loader, vendorName, s2);
  }
}
