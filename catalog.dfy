/** The catalog accessor of utils/catalog_loader.py: two read-only vendor
    catalogs (each four ordered device lists), vendor lookup, threshold filters
    and a per-vendor summary.  Loading the JSON files is left to the caller: the
    loader is the value of its two catalogs. */
module Catalog {
  import opened Common

  /** One catalog record.  `throughputMbps`, `maxDevices` and `ports` are read
      with a default by the performance scorer, so they may be absent. */
  datatype Device = Device(
    model: string,
    price: real,
    maxUsersSupported: int,
    coverageSqft: int,
    maxDevicesSupported: int,
    throughputMbps: Option<int>,
    maxDevices: Option<int>,
    ports: Option<int>)

  datatype Category = Routers | Switches | AccessPoints | Firewalls

  datatype VendorCatalog = VendorCatalog(
    routers: seq<Device>,
    switches: seq<Device>,
    accessPoints: seq<Device>,
    firewalls: seq<Device>)
  {
    function Devices(c: Category): seq<Device> {
      match c
      case Routers => routers
      case Switches => switches
      case AccessPoints => accessPoints
      case Firewalls => firewalls
    }
  }

  /** The loader after `__init__`: both catalogs, set once and only read. */
  datatype CatalogLoader = CatalogLoader(cisco: VendorCatalog, tplink: VendorCatalog)

  /** `get_vendor_catalog`: "cisco" and "tp-link" in any (ASCII) case, and
      nothing else. */
  function GetVendorCatalog(loader: CatalogLoader, vendorName: string): (r: Result<VendorCatalog>)
    ensures r.Success? <==> Lower(vendorName) == "cisco" || Lower(vendorName) == "tp-link"
    ensures Lower(vendorName) == "cisco" ==> r == Success(loader.cisco)
    ensures Lower(vendorName) == "tp-link" ==> r == Success(loader.tplink)
    ensures r.Failure? ==> r.error == UnsupportedVendor
  {
    var name := Lower(vendorName);
    if name == "cisco" then Success(loader.cisco)
    else if name == "tp-link" then Success(loader.tplink)
    else Failure(UnsupportedVendor)
  }

  lemma CiscoCatalog(loader: CatalogLoader)
    ensures GetVendorCatalog(loader, "Cisco") == Success(loader.cisco)
  {
    LowerCisco();
  }

  lemma TpLinkCatalog(loader: CatalogLoader)
    ensures GetVendorCatalog(loader, "TP-Link") == Success(loader.tplink)
  {
    LowerTpLink();
  }

  /** The key used in `selected_models` is not a catalog name. */
  lemma TplinkIsNotAVendorName(loader: CatalogLoader)
    ensures GetVendorCatalog(loader, "tplink").Failure?
  {
    var l := Lower("tplink");
    assert l[2] == 'l';
  }

  // ---------------------------------------------------------------------------
  // Filters: list comprehensions over one category list
  // ---------------------------------------------------------------------------

  /** The condition of each comprehension. */
  datatype Criterion =
    | UsersAndArea(minUsers: int, minSqft: int)   // filter_routers, filter_access_points
    | DeviceCapacity(minDevices: int)              // filter_switches
    | UserCapacity(minUsers: int)                  // filter_firewalls
    | PriceCap(maxPrice: real)                     // filter_by_budget

  predicate Meets(d: Device, c: Criterion) {
    match c
    case UsersAndArea(u, a) => d.maxUsersSupported >= u && d.coverageSqft >= a
    case DeviceCapacity(n) => d.maxDevicesSupported >= n
    case UserCapacity(u) => d.maxUsersSupported >= u
    case PriceCap(p) => d.price <= p
  }

  /** `[d for d in s if Meets(d, c)]`: exactly the elements that meet the
      criterion, each as often as in `s`, in the order of `s`. */
  function Filter(s: seq<Device>, c: Criterion): (r: seq<Device>)
    ensures IsSubsequence(r, s)
    ensures forall d :: d in r <==> d in s && Meets(d, c)
    ensures forall d :: multiset(r)[d] == if Meets(d, c) then multiset(s)[d] else 0
    ensures |r| <= |s|
  {
    if s == [] then []
    else
      var rest := Filter(s[1..], c);
      assert s == [s[0]] + s[1..];
      if Meets(s[0], c) then [s[0]] + rest
      else
        assert rest == [] || rest[0] != s[0];
        rest
  }

  /** A stricter criterion keeps a subsequence of what a weaker one keeps. */
  lemma {:induction false} FilterStricter(s: seq<Device>, weak: Criterion, strict: Criterion)
    requires forall d :: Meets(d, strict) ==> Meets(d, weak)
    ensures IsSubsequence(Filter(s, strict), Filter(s, weak))
  {
    if s != [] {
      FilterStricter(s[1..], weak, strict);
      var a, b := Filter(s[1..], strict), Filter(s[1..], weak);
      if Meets(s[0], strict) {
        assert ([s[0]] + a)[1..] == a && ([s[0]] + b)[1..] == b;
      } else if Meets(s[0], weak) {
        SubsequencePrepend(a, b, s[0]);
      }
    }
  }

  /** `filter_routers`: routers serving at least `minUsers` users and covering at
      least `minSqft`. */
  function FilterRouters(loader: CatalogLoader, vendor: string, minUsers: int, minSqft: int): (r: Result<seq<Device>>)
    ensures r.Success? <==> GetVendorCatalog(loader, vendor).Success?
    ensures r.Success? ==> var all := GetVendorCatalog(loader, vendor).value.routers;
      && IsSubsequence(r.value, all)
      && (forall d :: d in r.value <==> d in all && d.maxUsersSupported >= minUsers && d.coverageSqft >= minSqft)
      && forall d :: multiset(r.value)[d] == if d.maxUsersSupported >= minUsers && d.coverageSqft >= minSqft then multiset(all)[d] else 0
  {
    var catalog :- GetVendorCatalog(loader, vendor);
    Success(Filter(catalog.routers, UsersAndArea(minUsers, minSqft)))
  }

  /** `filter_switches`: only `max_devices_supported` is tested. */
  function FilterSwitches(loader: CatalogLoader, vendor: string, minDevices: int): (r: Result<seq<Device>>)
    ensures r.Success? <==> GetVendorCatalog(loader, vendor).Success?
    ensures r.Success? ==> var all := GetVendorCatalog(loader, vendor).value.switches;
      && IsSubsequence(r.value, all)
      && (forall d :: d in r.value <==> d in all && d.maxDevicesSupported >= minDevices)
      && forall d :: multiset(r.value)[d] == if d.maxDevicesSupported >= minDevices then multiset(all)[d] else 0
  {
    var catalog :- GetVendorCatalog(loader, vendor);
    Success(Filter(catalog.switches, DeviceCapacity(minDevices)))
  }

  /** `filter_access_points`: the same two thresholds as for routers. */
  function FilterAccessPoints(loader: CatalogLoader, vendor: string, minUsers: int, minSqft: int): (r: Result<seq<Device>>)
    ensures r.Success? <==> GetVendorCatalog(loader, vendor).Success?
    ensures r.Success? ==> var all := GetVendorCatalog(loader, vendor).value.accessPoints;
      && IsSubsequence(r.value, all)
      && (forall d :: d in r.value <==> d in all && d.maxUsersSupported >= minUsers && d.coverageSqft >= minSqft)
      && forall d :: multiset(r.value)[d] == if d.maxUsersSupported >= minUsers && d.coverageSqft >= minSqft then multiset(all)[d] else 0
  {
    var catalog :- GetVendorCatalog(loader, vendor);
    Success(Filter(catalog.accessPoints, UsersAndArea(minUsers, minSqft)))
  }

  /** `filter_firewalls`: only `max_users_supported` is tested. */
  function FilterFirewalls(loader: CatalogLoader, vendor: string, minUsers: int): (r: Result<seq<Device>>)
    ensures r.Success? <==> GetVendorCatalog(loader, vendor).Success?
    ensures r.Success? ==> var all := GetVendorCatalog(loader, vendor).value.firewalls;
      && IsSubsequence(r.value, all)
      && (forall d :: d in r.value <==> d in all && d.maxUsersSupported >= minUsers)
      && forall d :: multiset(r.value)[d] == if d.maxUsersSupported >= minUsers then multiset(all)[d] else 0
  {
    var catalog :- GetVendorCatalog(loader, vendor);
    Success(Filter(catalog.firewalls, UserCapacity(minUsers)))
  }

  /** `filter_by_budget`: the devices priced at most `maxPrice`. */
  function FilterByBudget(devices: seq<Device>, maxPrice: real): (r: seq<Device>)
    ensures IsSubsequence(r, devices)
    ensures forall d :: d in r <==> d in devices && d.price <= maxPrice
    ensures forall d :: multiset(r)[d] == if d.price <= maxPrice then multiset(devices)[d] else 0
  {
    Filter(devices, PriceCap(maxPrice))
  }

  /** When nothing qualifies the result is the empty list, not an error. */
  lemma NoMatchIsEmpty(loader: CatalogLoader, vendor: string, minUsers: int, minSqft: int)
    requires GetVendorCatalog(loader, vendor).Success?
    requires forall d :: d in GetVendorCatalog(loader, vendor).value.routers ==>
      d.maxUsersSupported < minUsers || d.coverageSqft < minSqft
    ensures FilterRouters(loader, vendor, minUsers, minSqft) == Success([])
  {
  }

  /** Raising `min_users` never adds a router, access point or firewall. */
  lemma MoreUsersNeverAdds(loader: CatalogLoader, vendor: string, u1: int, u2: int, minSqft: int)
    requires u1 <= u2
    requires GetVendorCatalog(loader, vendor).Success?
    ensures IsSubsequence(FilterRouters(loader, vendor, u2, minSqft).value,
                          FilterRouters(loader, vendor, u1, minSqft).value)
    ensures IsSubsequence(FilterAccessPoints(loader, vendor, u2, minSqft).value,
                          FilterAccessPoints(loader, vendor, u1, minSqft).value)
    ensures IsSubsequence(FilterFirewalls(loader, vendor, u2).value,
                          FilterFirewalls(loader, vendor, u1).value)
  {
    var cat := GetVendorCatalog(loader, vendor).value;
    FilterStricter(cat.routers, UsersAndArea(u1, minSqft), UsersAndArea(u2, minSqft));
    FilterStricter(cat.accessPoints, UsersAndArea(u1, minSqft), UsersAndArea(u2, minSqft));
    FilterStricter(cat.firewalls, UserCapacity(u1), UserCapacity(u2));
  }

  /** Raising the price cap never removes a device. */
  lemma LargerBudgetNeverRemoves(devices: seq<Device>, p1: real, p2: real)
    requires p1 <= p2
    ensures IsSubsequence(FilterByBudget(devices, p1), FilterByBudget(devices, p2))
  {
    FilterStricter(devices, PriceCap(p2), PriceCap(p1));
  }

  // ---------------------------------------------------------------------------
  // Summary and model lookup
  // ---------------------------------------------------------------------------

  datatype Summary = Summary(routers: nat, switches: nat, accessPoints: nat, firewalls: nat)

  /** `summarize_vendor`: the number of entries in each category list. */
  function SummarizeVendor(loader: CatalogLoader, vendor: string): (r: Result<Summary>)
    ensures r.Success? <==> GetVendorCatalog(loader, vendor).Success?
    ensures r.Failure? ==> r.error == UnsupportedVendor
    ensures r.Success? ==> var c := GetVendorCatalog(loader, vendor).value;
      && r.value.routers == |c.Devices(Routers)| && r.value.switches == |c.Devices(Switches)|
      && r.value.accessPoints == |c.Devices(AccessPoints)| && r.value.firewalls == |c.Devices(Firewalls)|
  {
    var catalog :- GetVendorCatalog(loader, vendor);
    Success(Summary(|catalog.routers|, |catalog.switches|, |catalog.accessPoints|, |catalog.firewalls|))
  }

  /** No filter returns more devices than the summary counts for its category. */
  lemma FiltersWithinSummary(loader: CatalogLoader, vendor: string, minUsers: int, minSqft: int, minDevices: int)
    requires GetVendorCatalog(loader, vendor).Success?
    ensures var s := SummarizeVendor(loader, vendor).value;
      && |FilterRouters(loader, vendor, minUsers, minSqft).value| <= s.routers
      && |FilterSwitches(loader, vendor, minDevices).value| <= s.switches
      && |FilterAccessPoints(loader, vendor, minUsers, minSqft).value| <= s.accessPoints
      && |FilterFirewalls(loader, vendor, minUsers).value| <= s.firewalls
  {
  }

  function ModelNames(devices: seq<Device>): (names: seq<string>)
    ensures |names| == |devices|
    ensures forall i :: 0 <= i < |devices| ==> names[i] == devices[i].model
  {
    seq(|devices|, i requires 0 <= i < |devices| => devices[i].model)
  }

  /** Position of the first device named `name`, or |devices| when none is. */
  function IndexOfModel(devices: seq<Device>, name: string): (i: nat)
    ensures i <= |devices|
    ensures forall j :: 0 <= j < i ==> devices[j].model != name
    ensures i < |devices| ==> devices[i].model == name
  {
    if devices == [] then 0
    else if devices[0].model == name then 0
    else 1 + IndexOfModel(devices[1..], name)
  }

  /** `next(d for d in devices if d["model"] == name)`: the first device with
      that model name, or StopIteration. */
  function FindModel(devices: seq<Device>, name: string): (r: Result<Device>)
    ensures r.Success? <==> name in ModelNames(devices)
    ensures r.Success? ==> r.value in devices && r.value.model == name
    ensures r.Success? ==> IndexOfModel(devices, name) < |devices| && r.value == devices[IndexOfModel(devices, name)]
    ensures r.Failure? ==> r.error == StopIteration
  {
    var i := IndexOfModel(devices, name);
    if i < |devices| then Success(devices[i])
    else
      assert forall j :: 0 <= j < |devices| ==> ModelNames(devices)[j] != name;
      Failure(StopIteration)
  }
}
