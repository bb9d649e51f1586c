/**
 * The `azurerm_express_route_circuit` resource
 * (azurerm/internal/services/network/express_route_circuit_resource.go):
 * the bandwidth force-new rule, the SKU codec, the schema's argument groups,
 * the payload shaping of create/update and the creation-poll refresh.
 *
 * The Network API client, the per-name lock and the poll loop are not modelled:
 * the client's answers are inputs, and the shaping returns the payload that
 * would be sent to `CreateOrUpdate`.
 */
module ExpressRouteCircuit {
  import opened Wrappers

  // ---------------------------------------------------------------------------
  // CustomizeDiff: lowering the bandwidth forces a new resource
  // ---------------------------------------------------------------------------

  /**
   * The `ForceNewIfChange("bandwidth_in_mbps", ...)` condition: keeping or raising
   * the bandwidth is done in place; only a strict decrease replaces the circuit.
   */
  function BandwidthChangeForcesNew(oldMbps: int, newMbps: int): (forceNew: bool)
    ensures forceNew ==> newMbps < oldMbps
    ensures newMbps >= oldMbps ==> !forceNew
  {
    newMbps < oldMbps
  }

  /** Each step of the history is applied in place, without replacing the circuit. */
  predicate InPlaceHistory(mbps: seq<int>) {
    forall i :: 0 <= i < |mbps| - 1 ==> !BandwidthChangeForcesNew(mbps[i], mbps[i + 1])
  }

  /** A circuit that is only ever updated in place never ends up with less bandwidth than it started with. */
  lemma {:induction false} InPlaceUpdatesNeverLowerBandwidth(mbps: seq<int>)
    requires |mbps| > 0
    requires InPlaceHistory(mbps)
    ensures forall i :: 0 <= i < |mbps| ==> mbps[0] <= mbps[i]
  {
    if |mbps| > 1 {
      var rest := mbps[1..];
      assert forall i :: 0 <= i < |rest| ==> rest[i] == mbps[i + 1];
      InPlaceUpdatesNeverLowerBandwidth(rest);
      assert !BandwidthChangeForcesNew(mbps[0], mbps[1]);
      forall i | 1 <= i < |mbps|
        ensures mbps[0] <= mbps[i]
      {
        assert mbps[i] == rest[i - 1];
      }
    }
  }

  // ---------------------------------------------------------------------------
  // SKU
  // ---------------------------------------------------------------------------

  /** One element of the `sku` block. */
  datatype SkuSettings = SkuSettings(tier: string, family: string)

  /** `network.ExpressRouteCircuitSku`. */
  datatype Sku = Sku(name: Option<string>, tier: string, family: string)

  /** `fmt.Sprintf("%s_%s", tier, family)`: the tier, then "_", then the family. */
  function SkuName(s: SkuSettings): (name: string)
    ensures |name| == |s.tier| + 1 + |s.family|
    ensures name[..|s.tier|] == s.tier
    ensures name[|s.tier|] == '_'
    ensures name[|s.tier| + 1..] == s.family
  {
    var name := s.tier + "_" + s.family;
    assert name[..|s.tier|] == s.tier;
    assert name[|s.tier| + 1..] == s.family;
    name
  }

  /** `expandExpressRouteCircuitSku`: reads the first (and, by the schema, only) element. */
  function ExpandSku(settings: seq<SkuSettings>): (sku: Sku)
    requires |settings| > 0
    ensures sku.tier == settings[0].tier && sku.family == settings[0].family
    ensures sku.name == Some(SkuName(settings[0]))
  {
    Sku(Some(SkuName(settings[0])), settings[0].tier, settings[0].family)
  }

  /** `flattenExpressRouteCircuitSku`: a one-element list of tier and family; the name is dropped. */
  function FlattenSku(sku: Sku): (r: seq<SkuSettings>)
    ensures |r| == 1 && r[0].tier == sku.tier && r[0].family == sku.family
  {
    [SkuSettings(sku.tier, sku.family)]
  }

  /** flatten(expand(sku)) recovers the first element exactly, as a one-element list. */
  lemma SkuRoundTrip(settings: seq<SkuSettings>)
    requires |settings| > 0
    ensures FlattenSku(ExpandSku(settings)) == settings[..1]
  {
  }

  /**
   * No tier the schema accepts (Basic, Local, Standard, Premium) contains "_", so
   * the SKU name alone determines tier and family.
   */
  lemma SkuNameDeterminesTierAndFamily(a: SkuSettings, b: SkuSettings)
    requires '_' !in a.tier && '_' !in b.tier
    requires ExpandSku([a]).name == ExpandSku([b]).name
    ensures a == b
  {
  }

  // ---------------------------------------------------------------------------
  // Argument groups (RequiredWith / ConflictsWith)
  // ---------------------------------------------------------------------------

  datatype CircuitArgument =
    | ServiceProviderName
    | PeeringLocation
    | BandwidthInMbps
    | BandwidthInGbps
    | ExpressRoutePortId

  /** The `RequiredWith` list declared on each argument: the rest of its own group. */
  function RequiredWith(a: CircuitArgument): (required: set<CircuitArgument>)
    ensures a in ProviderGroup ==> required == ProviderGroup - {a}
    ensures a in PortGroup ==> required == PortGroup - {a}
  {
    match a
    case ServiceProviderName => {BandwidthInMbps, PeeringLocation}
    case PeeringLocation => {BandwidthInMbps, ServiceProviderName}
    case BandwidthInMbps => {PeeringLocation, ServiceProviderName}
    case BandwidthInGbps => {ExpressRoutePortId}
    case ExpressRoutePortId => {BandwidthInGbps}
  }

  /** The `ConflictsWith` list declared on each argument: the whole other group. */
  function ConflictsWith(a: CircuitArgument): (conflicts: set<CircuitArgument>)
    ensures a in ProviderGroup ==> conflicts == PortGroup
    ensures a in PortGroup ==> conflicts == ProviderGroup
  {
    match a
    case ServiceProviderName => {BandwidthInGbps, ExpressRoutePortId}
    case PeeringLocation => {BandwidthInGbps, ExpressRoutePortId}
    case BandwidthInMbps => {BandwidthInGbps, ExpressRoutePortId}
    case BandwidthInGbps => {BandwidthInMbps, PeeringLocation, ServiceProviderName}
    case ExpressRoutePortId => {BandwidthInMbps, PeeringLocation, ServiceProviderName}
  }

  const ProviderGroup: set<CircuitArgument> := {ServiceProviderName, PeeringLocation, BandwidthInMbps}
  const PortGroup: set<CircuitArgument> := {BandwidthInGbps, ExpressRoutePortId}

  /** Every set argument has all of its `RequiredWith` set and none of its `ConflictsWith`. */
  predicate SatisfiesArgumentRules(present: set<CircuitArgument>) {
    forall a :: a in present ==> RequiredWith(a) <= present && ConflictsWith(a) !! present
  }

  /** The declared lists are consistent: conflicts are symmetric, and requirements stay inside one group. */
  lemma ArgumentListsConsistent(a: CircuitArgument, b: CircuitArgument)
    ensures b in ConflictsWith(a) <==> a in ConflictsWith(b)
    ensures b in RequiredWith(a) ==> (a in ProviderGroup <==> b in ProviderGroup)
    ensures a in ProviderGroup <==> a !in PortGroup
    ensures b in ConflictsWith(a) <==> (a in ProviderGroup <==> b in PortGroup)
  {
  }

  /**
   * The rules admit exactly three choices: none of the five arguments, the whole
   * service-provider group, or the whole express-route-port group.
   */
  lemma ArgumentRulesAdmitOneWholeGroup(present: set<CircuitArgument>)
    ensures SatisfiesArgumentRules(present) <==>
              present == {} || present == ProviderGroup || present == PortGroup
  {
  }

  // ---------------------------------------------------------------------------
  // Configuration and payload
  // ---------------------------------------------------------------------------

  /**
   * The resource configuration. The five group arguments are `Option`s: `None`
   * when absent from the configuration. `bandwidthInGbps` (a float64) is only
   * carried through.
   */
  datatype CircuitConfig = CircuitConfig(
    name: string,
    sku: seq<SkuSettings>,
    allowClassicOperations: bool,
    serviceProviderName: Option<string>,
    peeringLocation: Option<string>,
    bandwidthInMbps: Option<int>,
    bandwidthInGbps: Option<real>,
    expressRoutePortId: Option<string>)

  /** The group arguments the configuration sets. */
  function PresentArguments(c: CircuitConfig): (present: set<CircuitArgument>)
    ensures ServiceProviderName in present <==> c.serviceProviderName.Some?
    ensures PeeringLocation in present <==> c.peeringLocation.Some?
    ensures BandwidthInMbps in present <==> c.bandwidthInMbps.Some?
    ensures BandwidthInGbps in present <==> c.bandwidthInGbps.Some?
    ensures ExpressRoutePortId in present <==> c.expressRoutePortId.Some?
  {
    (if c.serviceProviderName.Some? then {ServiceProviderName} else {})
    + (if c.peeringLocation.Some? then {PeeringLocation} else {})
    + (if c.bandwidthInMbps.Some? then {BandwidthInMbps} else {})
    + (if c.bandwidthInGbps.Some? then {BandwidthInGbps} else {})
    + (if c.expressRoutePortId.Some? then {ExpressRoutePortId} else {})
  }

  /** `d.Get` of an unset argument yields its type's zero value. */
  function GetString(v: Option<string>): string {
    match v
    case None => ""
    case Some(s) => s
  }

  function GetInt(v: Option<int>): int {
    match v
    case None => 0
    case Some(n) => n
  }

  function GetFloat(v: Option<real>): real {
    match v
    case None => 0.0
    case Some(x) => x
  }

  /** `d.GetOk` on a string reports ok only for a set, non-empty value. */
  predicate GetOkString(v: Option<string>) {
    v.Some? && v.value != ""
  }

  /** Go's `int32(x)`: keep the low 32 bits, read as two's complement. */
  function ToInt32(x: int): (r: int)
    ensures -0x8000_0000 <= r < 0x8000_0000
    ensures (x - r) % 0x1_0000_0000 == 0
    ensures -0x8000_0000 <= x < 0x8000_0000 ==> r == x
  {
    var low := x % 0x1_0000_0000;
    if low >= 0x8000_0000 then low - 0x1_0000_0000 else low
  }

  /** `network.ExpressRouteCircuitServiceProviderProperties`. */
  datatype ServiceProviderProperties = ServiceProviderProperties(
    serviceProviderName: Option<string>,
    peeringLocation: Option<string>,
    bandwidthInMbps: Option<int>)

  /** `network.SubResource`: a reference by ID. */
  datatype SubResource = SubResource(id: Option<string>)

  /**
   * `network.ExpressRouteCircuitPropertiesFormat`, with the fields this resource
   * writes; `serviceKey` stands for the fields the service manages, which an
   * update carries over from the circuit it read.
   */
  datatype CircuitProperties = CircuitProperties(
    allowClassicOperations: Option<bool>,
    serviceProviderProperties: Option<ServiceProviderProperties>,
    expressRoutePort: Option<SubResource>,
    bandwidthInGbps: Option<real>,
    serviceKey: Option<string>)

  /** `network.ExpressRouteCircuit`. */
  datatype Circuit = Circuit(
    id: Option<string>,
    name: Option<string>,
    location: Option<string>,
    sku: Option<Sku>,
    tags: map<string, string>,
    properties: Option<CircuitProperties>)

  const EmptyCircuit: Circuit := Circuit(None, None, None, None, map[], None)
  const EmptyProperties: CircuitProperties := CircuitProperties(None, None, None, None, None)

  /** An update writes into the circuit it read: that circuit must have properties and one of the two branches. */
  predicate HasPropertyBranch(erc: Circuit) {
    erc.properties.Some?
    && (erc.properties.value.serviceProviderProperties.Some? || erc.properties.value.expressRoutePort.Some?)
  }

  /**
   * What the payload built from configuration `c` looks like, starting from
   * `base` (the empty circuit on create, the circuit read back on update).
   */
  predicate ShapedFrom(c: CircuitConfig, isNew: bool, base: Circuit, location: string,
                       tags: map<string, string>, erc: Circuit)
    requires |c.sku| > 0
  {
    && erc.id == base.id
    && erc.name == Some(c.name)
    && erc.location == Some(location)
    && erc.sku == Some(ExpandSku(c.sku))
    && erc.tags == tags
    && erc.properties.Some?
    && var p := erc.properties.value;
    // on create: a fresh record, exactly one branch, the port iff its ID is set; no classic-operations flag
    && (isNew ==>
          && (p.expressRoutePort.Some? <==> p.serviceProviderProperties.None?)
          && (p.expressRoutePort.Some? <==> GetOkString(c.expressRoutePortId))
          && p.allowClassicOperations.None?
          && p.serviceKey.None?)
    // on update: the branch and the service-managed fields of the circuit read back, the flag from the configuration
    && (!isNew ==>
          && base.properties.Some?
          && (p.serviceProviderProperties.Some? <==> base.properties.value.serviceProviderProperties.Some?)
          && p.allowClassicOperations == Some(c.allowClassicOperations)
          && p.serviceKey == base.properties.value.serviceKey)
    // the service-provider branch: name, location and the bandwidth in Mbps (as int32)
    && (p.serviceProviderProperties.Some? ==>
          && p.serviceProviderProperties.value == ServiceProviderProperties(
               Some(GetString(c.serviceProviderName)),
               Some(GetString(c.peeringLocation)),
               Some(ToInt32(GetInt(c.bandwidthInMbps))))
          && (isNew ==> p.bandwidthInGbps.None?)
          && (!isNew ==> p.expressRoutePort == base.properties.value.expressRoutePort
                         && p.bandwidthInGbps == base.properties.value.bandwidthInGbps))
    // the port branch: the port ID and the bandwidth in Gbps
    && (p.serviceProviderProperties.None? ==>
          && p.expressRoutePort == Some(SubResource(Some(GetString(c.expressRoutePortId))))
          && p.bandwidthInGbps == Some(GetFloat(c.bandwidthInGbps)))
  }

  /**
   * The field-by-field shaping of the payload: name, location, SKU and tags,
   * then the properties. `location` and `tags` are the results of
   * `azure.NormalizeLocation` and `tags.Expand`.
   */
  method ShapePayload(c: CircuitConfig, isNew: bool, existing: Circuit, location: string, tags: map<string, string>)
    returns (erc: Circuit)
    requires |c.sku| > 0
    requires !isNew ==> HasPropertyBranch(existing)
    ensures ShapedFrom(c, isNew, if isNew then EmptyCircuit else existing, location, tags, erc)
  {
    erc := if isNew then EmptyCircuit else existing;
    erc := erc.(name := Some(c.name));
    erc := erc.(location := Some(location));
    erc := erc.(sku := Some(ExpandSku(c.sku)));
    erc := erc.(tags := tags);

    var props: CircuitProperties;
    if !isNew {
      props := erc.properties.value.(allowClassicOperations := Some(c.allowClassicOperations));
    } else {
      props := EmptyProperties;
      // ServiceProviderProperties and the port are mutually exclusive
      if GetOkString(c.expressRoutePortId) {
        props := props.(expressRoutePort := Some(SubResource(None)));
      } else {
        props := props.(serviceProviderProperties := Some(ServiceProviderProperties(None, None, None)));
      }
    }

    if props.serviceProviderProperties.Some? {
      props := props.(serviceProviderProperties := Some(props.serviceProviderProperties.value.(
        serviceProviderName := Some(GetString(c.serviceProviderName)),
        peeringLocation := Some(GetString(c.peeringLocation)),
        bandwidthInMbps := Some(ToInt32(GetInt(c.bandwidthInMbps))))));
    } else {
      props := props.(expressRoutePort := Some(props.expressRoutePort.value.(id := Some(GetString(c.expressRoutePortId)))));
      props := props.(bandwidthInGbps := Some(GetFloat(c.bandwidthInGbps)));
    }
    erc := erc.(properties := Some(props));
  }

  /**
   * A new circuit whose configuration passes the argument rules, and whose port ID
   * is not the empty string, carries exactly the configured values of the group it
   * uses, and nothing of the other. `validate.ExpressRoutePortID` rules out the
   * empty port ID; with it, `d.GetOk` would be false and the provider branch taken.
   */
  lemma CreatePayloadCarriesConfiguredGroup(c: CircuitConfig, location: string,
                                              tags: map<string, string>, erc: Circuit)
    requires |c.sku| > 0
    requires SatisfiesArgumentRules(PresentArguments(c))
    requires c.expressRoutePortId != Some("")
    requires ShapedFrom(c, true, EmptyCircuit, location, tags, erc)
    ensures PresentArguments(c) == PortGroup ==>
              erc.properties.value.serviceProviderProperties.None?
              && erc.properties.value.expressRoutePort == Some(SubResource(c.expressRoutePortId))
              && erc.properties.value.bandwidthInGbps == c.bandwidthInGbps
    ensures PresentArguments(c) == ProviderGroup ==>
              erc.properties.value.expressRoutePort.None?
              && erc.properties.value.bandwidthInGbps.None?
              && var spp := erc.properties.value.serviceProviderProperties;
                 spp.Some?
                 && spp.value.serviceProviderName == c.serviceProviderName
                 && spp.value.peeringLocation == c.peeringLocation
                 && spp.value.bandwidthInMbps == Some(ToInt32(c.bandwidthInMbps.value))
  {
  }

  // ---------------------------------------------------------------------------
  // Create / update: the existence checks before the payload is sent
  // ---------------------------------------------------------------------------

  /** The result of a `Get` of the circuit. */
  datatype CircuitLookup =
    | CircuitNotFound
    | CircuitLookupFailed
    | CircuitFound(circuit: Circuit)

  datatype CircuitError =
    | ExistenceCheckFailed   // "Error checking for presence of existing ExpressRoute Circuit"
    | ImportAsExists(id: string)
    | RefreshFailed          // the in-place refresh `CreateOrUpdate` of the existing circuit failed

  datatype PayloadOutcome =
    | Payload(circuit: Circuit)
    | Rejected(err: CircuitError)

  /**
   * `resourceExpressRouteCircuitCreateUpdate` up to the final `CreateOrUpdate`.
   * `lookup` is the answer of the first `Get`; `refreshOk` the outcome of
   * re-submitting the existing circuit on update.
   */
  method CreateUpdate(c: CircuitConfig, isNew: bool, lookup: CircuitLookup, refreshOk: bool,
                      location: string, tags: map<string, string>)
    returns (r: PayloadOutcome)
    requires |c.sku| > 0
    requires !isNew && lookup.CircuitFound? && refreshOk ==> HasPropertyBranch(lookup.circuit)
    // create: a failed lookup other than not-found, or a circuit that already has an ID, stops it
    ensures isNew && lookup.CircuitLookupFailed? ==> r == Rejected(ExistenceCheckFailed)
    ensures (isNew && lookup.CircuitFound? && lookup.circuit.id.Some? && lookup.circuit.id.value != "")
              ==> r == Rejected(ImportAsExists(lookup.circuit.id.value))
    ensures (isNew && !lookup.CircuitLookupFailed?
             && !(lookup.CircuitFound? && lookup.circuit.id.Some? && lookup.circuit.id.value != ""))
              ==> r.Payload? && ShapedFrom(c, true, EmptyCircuit, location, tags, r.circuit)
    // update: any failed lookup, not-found included, stops it
    ensures !isNew && !lookup.CircuitFound? ==> r == Rejected(ExistenceCheckFailed)
    ensures !isNew && lookup.CircuitFound? && !refreshOk ==> r == Rejected(RefreshFailed)
    ensures (!isNew && lookup.CircuitFound? && refreshOk)
              ==> r.Payload? && ShapedFrom(c, false, lookup.circuit, location, tags, r.circuit)
  {
    var base := EmptyCircuit;
    if isNew {
      if lookup.CircuitLookupFailed? {
        return Rejected(ExistenceCheckFailed);
      }
      if lookup.CircuitFound? && lookup.circuit.id.Some? && lookup.circuit.id.value != "" {
        return Rejected(ImportAsExists(lookup.circuit.id.value));
      }
    } else {
      // the not-found exemption tests the response of the still-empty payload, so it never applies
      if !lookup.CircuitFound? {
        return Rejected(ExistenceCheckFailed);
      }
      if !refreshOk {
        return Rejected(RefreshFailed);
      }
      base := lookup.circuit;
    }
    var erc := ShapePayload(c, isNew, base, location, tags);
    return Payload(erc);
  }

  // ---------------------------------------------------------------------------
  // Creation poll: refresh classification
  // ---------------------------------------------------------------------------

  const PendingStates: set<string> := {"NotFound"}
  const TargetStates: set<string> := {"Exists"}

  datatype RefreshResult = RefreshResult(result: Option<Circuit>, state: string, failed: bool)

  /**
   * `expressRouteCircuitCreationRefreshFunc`, after its `Get`: not-found is the
   * pending state without error, any other error fails the poll, a circuit is the
   * target state.
   */
  function CreationRefresh(lookup: CircuitLookup): (r: RefreshResult)
    ensures r.failed <==> lookup.CircuitLookupFailed?
    ensures r.failed ==> r.state == "" && r.result.None?
    ensures r.state in PendingStates <==> lookup.CircuitNotFound?
    ensures r.state in TargetStates <==> lookup.CircuitFound?
    ensures r.state in PendingStates ==> r.result.None?
    ensures lookup.CircuitFound? ==> r.result == Some(lookup.circuit)
    ensures !r.failed ==> r.state in PendingStates + TargetStates
  {
    match lookup
    case CircuitNotFound => RefreshResult(None, "NotFound", false)
    case CircuitLookupFailed => RefreshResult(None, "", true)
    case CircuitFound(circuit) => RefreshResult(Some(circuit), "Exists", false)
  }
}
