/**
 * The discovery services: list the account's home appliances and report each one of a
 * supported type that the bridge does not already have as a thing. The current service
 * knows six appliance types and uses the bridge's API client; the older one knows only the
 * dishwasher and builds (and disposes) a client of its own for every scan.
 */
module Discovery {
  import opened Wrappers
  import opened Text
  import opened Model
  import opened Constants
  import opened Client
  import opened Handlers

  datatype Service = Current | Legacy

  datatype ThingUid = ThingUid(bindingId: string, typeId: string, id: string)

  /** What thingDiscovered is handed: uid, thing type, properties, bridge uid and label. */
  datatype DiscoveryResult = DiscoveryResult(
    uid: ThingUid, thingType: string, properties: map<string, string>, bridge: string, displayLabel: string)

  /** The thing types the current service reports, in the order of its type filter. */
  function SupportedTypes(): seq<string> {
    [THING_TYPE_DISHWASHER, THING_TYPE_OVEN, THING_TYPE_WASHER, THING_TYPE_DRYER, THING_TYPE_COFFEE_MAKER,
     THING_TYPE_FRIDGE_FREEZER]
  }

  /** A child thing of the bridge is configured for the appliance (the configuration entry may be missing). */
  predicate Configured(children: seq<Option<string>>, haId: string) {
    Some(haId) in children
  }

  /** The label: brand and name, then the haId in brackets, which can be read back off its end. */
  function ApplianceLabel(a: HomeAppliance): (text: string)
    ensures |text| == |a.brand| + |a.name| + |a.haId| + 4
    ensures text[..|a.brand|] == a.brand
    ensures text[|text| - |a.haId| - 1..|text| - 1] == a.haId
    ensures text[|text| - |a.haId| - 3..|text| - |a.haId| - 1] == " (" && text[|text| - 1] == ')'
  {
    a.brand + " " + a.name + " (" + a.haId + ")"
  }

  /**
   * The thing type for a listed appliance type, compared ignoring case: the first of the six
   * that matches (the last branch, washer, is only reached when the washer matches), or only
   * the dishwasher for the older service.
   */
  function ThingTypeFor(service: Service, typeName: string): (r: Option<string>)
    ensures r.Some? ==> EqualsIgnoreCase(r.value, typeName)
    ensures service == Current && r.Some? ==> r.value in SupportedTypes()
    ensures service == Current && r.None? ==> forall i | 0 <= i < |SupportedTypes()| :: !EqualsIgnoreCase(SupportedTypes()[i], typeName)
    ensures service == Legacy ==> (r.Some? <==> EqualsIgnoreCase(THING_TYPE_DISHWASHER, typeName))
    ensures service == Legacy && r.Some? ==> r.value == THING_TYPE_DISHWASHER
  {
    match service
    case Legacy =>
      if EqualsIgnoreCase(THING_TYPE_DISHWASHER, typeName) then Some(THING_TYPE_DISHWASHER) else None
    case Current =>
      if !(EqualsIgnoreCase(THING_TYPE_DISHWASHER, typeName) || EqualsIgnoreCase(THING_TYPE_OVEN, typeName) ||
           EqualsIgnoreCase(THING_TYPE_WASHER, typeName) || EqualsIgnoreCase(THING_TYPE_DRYER, typeName) ||
           EqualsIgnoreCase(THING_TYPE_COFFEE_MAKER, typeName) || EqualsIgnoreCase(THING_TYPE_FRIDGE_FREEZER, typeName))
      then None
      else if EqualsIgnoreCase(THING_TYPE_DISHWASHER, typeName) then Some(THING_TYPE_DISHWASHER)
      else if EqualsIgnoreCase(THING_TYPE_OVEN, typeName) then Some(THING_TYPE_OVEN)
      else if EqualsIgnoreCase(THING_TYPE_FRIDGE_FREEZER, typeName) then Some(THING_TYPE_FRIDGE_FREEZER)
      else if EqualsIgnoreCase(THING_TYPE_DRYER, typeName) then Some(THING_TYPE_DRYER)
      else if EqualsIgnoreCase(THING_TYPE_COFFEE_MAKER, typeName) then Some(THING_TYPE_COFFEE_MAKER)
      else Some(THING_TYPE_WASHER)
  }

  /**
   * No listed type matches two of the six thing types, so the order of the mapping's branches
   * does not matter: a type matching one of them maps to exactly that one.
   */
  lemma ThingTypeUnique(typeName: string, t: string)
    requires t in SupportedTypes() && EqualsIgnoreCase(t, typeName)
    ensures ThingTypeFor(Current, typeName) == Some(t)
  {
    var r := ThingTypeFor(Current, typeName);
    var i :| 0 <= i < |SupportedTypes()| && SupportedTypes()[i] == t;
    assert r.Some?;
    assert |r.value| == |typeName| == |t|;
  }

  /** The result for an appliance: the current service puts the listed type in the uid, the older one the thing type id. */
  function ResultFor(service: Service, a: HomeAppliance, thingType: string, bridgeUid: string): (d: DiscoveryResult)
    ensures d.uid.id == a.haId && d.uid.bindingId == BINDING_ID
    ensures d.properties == map[HA_ID := a.haId] && d.displayLabel == ApplianceLabel(a) && d.thingType == thingType
  {
    var uid := match service
      case Current => ThingUid(BINDING_ID, a.typeName, a.haId)
      case Legacy => ThingUid(BINDING_ID, THING_TYPE_DISHWASHER, a.haId);
    DiscoveryResult(uid, thingType, map[HA_ID := a.haId], bridgeUid, ApplianceLabel(a))
  }

  /** A scan reports d for a: a is not a thing yet, its type is supported, and d is its result. */
  predicate Yields(service: Service, a: HomeAppliance, children: seq<Option<string>>, bridgeUid: string, d: DiscoveryResult) {
    !Configured(children, a.haId) && ThingTypeFor(service, a.typeName).Some? &&
    d == ResultFor(service, a, ThingTypeFor(service, a.typeName).value, bridgeUid)
  }

  /** What startScan reports for one listed appliance: its result iff it is new and of a supported type. */
  function Step(service: Service, a: HomeAppliance, children: seq<Option<string>>, bridgeUid: string): (r: seq<DiscoveryResult>)
    ensures forall d :: d in r <==> Yields(service, a, children, bridgeUid, d)
    ensures |r| <= 1
  {
    if Configured(children, a.haId) then []
    else match ThingTypeFor(service, a.typeName)
      case None => []
      case Some(t) => [ResultFor(service, a, t, bridgeUid)]
  }

  /** The loop of startScan over the listed appliances, in list order. */
  function Discover(service: Service, appliances: seq<HomeAppliance>, children: seq<Option<string>>, bridgeUid: string): (r: seq<DiscoveryResult>)
    ensures |r| <= |appliances|
    decreases |appliances|
  {
    if |appliances| == 0 then []
    else
      Discover(service, appliances[..|appliances| - 1], children, bridgeUid) +
      Step(service, appliances[|appliances| - 1], children, bridgeUid)
  }

  /** A scan reports exactly the results of the listed appliances that are new and supported. */
  lemma {:induction false} DiscoverContents(service: Service, appliances: seq<HomeAppliance>, children: seq<Option<string>>,
                                             bridgeUid: string)
    ensures forall d :: d in Discover(service, appliances, children, bridgeUid) <==>
      exists a :: a in appliances && Yields(service, a, children, bridgeUid, d)
    decreases |appliances|
  {
    if |appliances| > 0 {
      var prefix := appliances[..|appliances| - 1];
      var last := appliances[|appliances| - 1];
      DiscoverContents(service, prefix, children, bridgeUid);
      assert appliances == prefix + [last];
      assert forall a :: a in appliances <==> a in prefix || a == last;
    }
  }

  /** No scan reports an appliance the bridge already has as a thing, and the older one reports only dishwashers. */
  lemma DiscoverSkipsKnown(service: Service, appliances: seq<HomeAppliance>, children: seq<Option<string>>,
                           bridgeUid: string, d: DiscoveryResult)
    requires d in Discover(service, appliances, children, bridgeUid)
    ensures !Configured(children, d.uid.id) && d.properties == map[HA_ID := d.uid.id]
    ensures service == Legacy ==> d.thingType == THING_TYPE_DISHWASHER && d.uid.typeId == THING_TYPE_DISHWASHER
  {
    DiscoverContents(service, appliances, children, bridgeUid);
  }

  /** Scanning one more appliance appends what that appliance yields. */
  lemma DiscoverSnoc(service: Service, appliances: seq<HomeAppliance>, i: nat, children: seq<Option<string>>,
                     bridgeUid: string)
    requires i < |appliances|
    ensures Discover(service, appliances[..i + 1], children, bridgeUid) ==
      Discover(service, appliances[..i], children, bridgeUid) + Step(service, appliances[i], children, bridgeUid)
  {
    assert appliances[..i + 1][..i] == appliances[..i];
  }

  /** alreadyExists: a flag set by every child whose configured haId matches, with no early exit. */
  method AlreadyExists(children: seq<Option<string>>, haId: string) returns (found: bool)
    ensures found <==> Configured(children, haId)
  {
    found := false;
    var i := 0;
    while i < |children|
      invariant 0 <= i <= |children|
      invariant found <==> Some(haId) in children[..i]
    {
      if children[i] == Some(haId) {
        found := true;
      }
      assert children[..i + 1] == children[..i] + [children[i]];
      i := i + 1;
    }
    assert children[..|children|] == children;
  }

  /** The discovery service: thingDiscovered appends to the results it has reported. */
  class DiscoveryService {
    /** The uid of the bridge thing the service belongs to. */
    const bridgeUid: string
    var results: seq<DiscoveryResult>

    constructor (bridgeUid: string)
      ensures this.bridgeUid == bridgeUid && results == []
    {
      this.bridgeUid := bridgeUid;
      results := [];
    }

    /** The loop body for one listed appliance: report it when it is new and of a supported type. */
    method ReportAppliance(service: Service, a: HomeAppliance, children: seq<Option<string>>)
      modifies this
      ensures results == old(results) + Step(service, a, children, bridgeUid)
    {
      var known := AlreadyExists(children, a.haId);
      if !known {
        var thingType := ThingTypeFor(service, a.typeName);
        if thingType.Some? {
          results := results + [ResultFor(service, a, thingType.value, bridgeUid)];
        }
      }
    }

    /** One pass over the listed appliances: report each new appliance of a supported type. */
    method ReportAppliances(service: Service, appliances: seq<HomeAppliance>, children: seq<Option<string>>)
      modifies this
      ensures results == old(results) + Discover(service, appliances, children, bridgeUid)
    {
      var i := 0;
      assert Discover(service, appliances[..0], children, bridgeUid) == [];
      while i < |appliances|
        invariant 0 <= i <= |appliances|
        invariant results == old(results) + Discover(service, appliances[..i], children, bridgeUid)
      {
        ReportAppliance(service, appliances[i], children);
        DiscoverSnoc(service, appliances, i, children, bridgeUid);
        AppendAssociates(old(results), Discover(service, appliances[..i], children, bridgeUid),
                         Step(service, appliances[i], children, bridgeUid));
        i := i + 1;
      }
      assert appliances[..|appliances|] == appliances;
    }

    /**
     * startScan of the current service: nothing without the bridge's client, when listing the
     * appliances throws, or when the list is null.
     */
    method StartScan(hasClient: bool, listing: Fetch<Option<seq<HomeAppliance>>>, children: seq<Option<string>>)
      modifies this
      ensures results == old(results) +
        if hasClient && listing.Fetched? && listing.value.Some?
        then Discover(Current, listing.value.value, children, bridgeUid) else []
    {
      if hasClient && listing.Fetched? && listing.value.Some? {
        ReportAppliances(Current, listing.value.value, children);
      }
    }

    /**
     * startScan of the older service: a client of its own, built from the bridge's
     * configuration, which is disposed whether the listing succeeded or not. The listing is a
     * parameter, so the credential check that the listing runs on the scan client is not
     * part of the client's final state: whatever token it obtained is discarded along with
     * the client, which dispose leaves with no listeners and no connections.
     */
    method LegacyStartScan(simulated: bool, refreshToken: Option<string>, listing: Fetch<Option<seq<HomeAppliance>>>,
                           children: seq<Option<string>>) returns (scanClient: ApiClient)
      modifies this
      ensures fresh(scanClient) && scanClient.State() == Disposed(Initial(simulated, refreshToken))
      ensures results == old(results) +
        if listing.Fetched? && listing.value.Some? then Discover(Legacy, listing.value.value, children, bridgeUid) else []
    {
      scanClient := new ApiClient(simulated, refreshToken);
      if listing.Fetched? && listing.value.Some? {
        ReportAppliances(Legacy, listing.value.value, children);
      }
      scanClient.Dispose();
    }
  }
}
