# App Service source control and Express Route circuit payloads, in Dafny

This project models the parts of an Azure provider plugin for a
configuration-management tool that can be stated exactly. The provider turns a
desired-state configuration into calls to the cloud vendor's management API.
Three pieces are modelled:

- **The GitHub Action configuration codec** (`source_control_schema.dfy`,
  module `SourceControlSchema`). The `github_action_configuration` block is a
  list capped at one element, and so are its `code_configuration` and
  `container_configuration` blocks. Expand turns it into the Web API's record,
  whose fields are nil-able pointers, modelled as `Option`s. Flatten turns such
  a record back into the block. Both directions of the round trip are proved.
- **The `azurerm_app_service_source_control` resource**
  (`source_control_resource.dfy`, module `SourceControlResource`). Create runs
  an existence check and the guard rails, then builds the source-control
  request field by field. It then issues the site patch and, for every SCM type
  other than LocalGit, the source-control update. Create is an imperative
  method: the outcome of each API call is an input, and the calls it issues are
  returned in order together with the error it returns, if any. Also modelled:
  Read's state mapping, the no-op Update, and a proof that Read gives back the
  configuration Create sent.
- **The `azurerm_express_route_circuit` resource** (`express_route_circuit.dfy`,
  module `ExpressRouteCircuit`). This covers the rule that lowering
  `bandwidth_in_mbps` forces a new resource, the SKU expand/flatten pair, and
  the `RequiredWith`/`ConflictsWith` argument groups. It also covers the
  field-by-field shaping of the create/update payload (an imperative method),
  the existence checks before it, and the classification made by the
  creation-poll refresh.

`wrappers.dfy` (module `Wrappers`) holds `Option`, which stands for Go's nil-able
pointers, and the documented effect of `utils.NormalizeNilableString`: nil
becomes "".

Conventions:
- Go panics are modelled as preconditions. They come from a nil pointer
  dereference or from indexing an empty list. Examples: `*input.IsLinux` in
  flatten, `input[0]` in expand, the flags in Read, and the existing circuit's
  properties on update.
- `d.Get` of an unset argument yields the zero value (`GetString`, `GetInt`,
  `GetFloat`). `d.GetOk` on a string holds only for a set, non-empty value
  (`GetOkString`).
- Go's `int32(...)` conversion of `bandwidth_in_mbps` is written out as a
  two's-complement wrap (`ToInt32`).

## Model

| member | source | states |
|---|---|---|
| `SourceControlSchema.ExpandGithubActionConfig` | azurerm/internal/services/appservice/sourcecontrol/schema.go:105-137 | A nil list gives a nil record. Otherwise `IsLinux` and `GenerateWorkflowFile` are always set to the first configuration's booleans. The code and container records are present iff their lists are non-empty, and each is built from the list's first element. Every pointer of the result is set. |
| `SourceControlSchema.ExpandCodeConfig` | azurerm/internal/services/appservice/sourcecontrol/schema.go:118-124 | Runtime stack and version are copied into set pointers. |
| `SourceControlSchema.ExpandContainerConfig` | azurerm/internal/services/appservice/sourcecontrol/schema.go:126-134 | RegistryURL→ServerURL, ImageName→ImageName, RegistryUsername→Username, RegistryPassword→Password, each into a set pointer. |
| `SourceControlSchema.FlattenGitHubActionConfiguration` | azurerm/internal/services/appservice/sourcecontrol/schema.go:139-171 | A nil record gives the empty list. A non-nil record gives exactly one configuration, whose booleans are the dereferenced `IsLinux`/`GenerateWorkflowFile`. Its nested lists hold one element iff the matching pointer is set. The result respects `MaxItems: 1`. |
| `SourceControlSchema.FlattenCodeConfig` | azurerm/internal/services/appservice/sourcecontrol/schema.go:150-156 | Nil runtime stack or version becomes "". |
| `SourceControlSchema.FlattenContainerConfig` | azurerm/internal/services/appservice/sourcecontrol/schema.go:158-166 | ServerURL→RegistryURL, ImageName→ImageName, Username→RegistryUsername, Password→RegistryPassword, with nil becoming "". |
| `SourceControlSchema.ExpandReadsOnlyLeadingElements` | azurerm/internal/services/appservice/sourcecontrol/schema.go:110-134 | Two lists that agree on `input[0]`'s booleans, `CodeConfig[0]` and `ContainerConfig[0]` expand to the same record. Later elements have no effect. |
| `SourceControlSchema.CodeConfigRoundTrip` | azurerm/internal/services/appservice/sourcecontrol/schema.go:118-156 | Flattening an expanded code configuration gives it back. |
| `SourceControlSchema.ContainerConfigRoundTrip` | azurerm/internal/services/appservice/sourcecontrol/schema.go:126-166 | Flattening an expanded container configuration gives it back. |
| `SourceControlSchema.ExpandThenFlatten` | azurerm/internal/services/appservice/sourcecontrol/schema.go:105-171 | For a configuration whose nested lists have at most one element each (the schema's `MaxItems: 1`), flatten(expand([c])) == [c]. |
| `SourceControlSchema.FlattenThenExpand` | azurerm/internal/services/appservice/sourcecontrol/schema.go:105-171 | A record whose pointers are all set survives expand(flatten(a)) unchanged. |
| `SourceControlResource.SourceControlRequest` | azurerm/internal/services/appservice/sourcecontrol/source_control_resource.go:146-175 | The four boolean flags are always copied. RepoURL and Branch are present iff non-empty. The GitHub Action record is present iff its list is non-empty, and is then the expanded list. |
| `SourceControlResource.Plan` | azurerm/internal/services/appservice/sourcecontrol/source_control_resource.go:155-191 | The first call is always the site patch with ScmType `LocalGit`. LocalGit issues only that call. Every other type then issues `UpdateSourceControl` with the built request. |
| `SourceControlResource.Create` | azurerm/internal/services/appservice/sourcecontrol/source_control_resource.go:117-197 | A failed or config-less existence check fails first. An existing SCM type other than `None` gives a requires-import error. LocalGit with any flag or a non-empty action list is an error. An empty `repo_url` is an error unless the type is LocalGit, and that includes an unset type. All of these happen before any call. A call is issued iff every check passes. The calls issued are a prefix of the plan. A failed site patch stops before the source-control update. Success means the whole plan was issued. |
| `SourceControlResource.StateFromProperties` | azurerm/internal/services/appservice/sourcecontrol/source_control_resource.go:222-234 | SCMType comes from the site config. Nil RepoURL and Branch become "". The four flags are dereferenced and copied. The action block is flattened. The state respects `MaxItems: 1`. |
| `SourceControlResource.Read` | azurerm/internal/services/appservice/sourcecontrol/source_control_resource.go:199-239 | A not-found source control marks the resource gone. Any other failure, or a response without properties, or a failed configuration lookup, is an error. Otherwise the state is the mapping above. |
| `SourceControlResource.ReadAfterCreate` | azurerm/internal/services/appservice/sourcecontrol/source_control_resource.go:146-234 | Suppose a configuration the schema admits is created with a type other than LocalGit, and the service echoes the request and the requested SCM type. Then Read gives back exactly that configuration. |
| `SourceControlResource.Update` | azurerm/internal/services/appservice/sourcecontrol/source_control_resource.go:265-272 | Update issues no call and always succeeds. |
| `ExpressRouteCircuit.BandwidthChangeForcesNew` | azurerm/internal/services/network/express_route_circuit_resource.go:35-40 | A change of `bandwidth_in_mbps` forces a new resource only when the new value is strictly less than the old one. Keeping or raising it never does. |
| `ExpressRouteCircuit.InPlaceUpdatesNeverLowerBandwidth` | azurerm/internal/services/network/express_route_circuit_resource.go:35-40 | Take any history of bandwidth changes applied without replacing the circuit. No value in it is below the first. |
| `ExpressRouteCircuit.SkuName` | azurerm/internal/services/network/express_route_circuit_resource.go:365 | The name is the tier, then "_", then the family: its length is their lengths plus one, the tier is its prefix and the family its suffix. |
| `ExpressRouteCircuit.ExpandSku` | azurerm/internal/services/network/express_route_circuit_resource.go:360-372 | Tier and family are copied from the first element. The name is set, and is `SkuName` of that element. |
| `ExpressRouteCircuit.FlattenSku` | azurerm/internal/services/network/express_route_circuit_resource.go:374-381 | A single-element list of the SKU's tier and family. |
| `ExpressRouteCircuit.SkuRoundTrip` | azurerm/internal/services/network/express_route_circuit_resource.go:360-381 | flatten(expand(sku)) is exactly the first element, as a single-element list. |
| `ExpressRouteCircuit.SkuNameDeterminesTierAndFamily` | azurerm/internal/services/network/express_route_circuit_resource.go:360-372 | For tiers without "_" (all four the schema accepts), equal SKU names mean equal tier and family. |
| `ExpressRouteCircuit.RequiredWith` | azurerm/internal/services/network/express_route_circuit_resource.go:97-135 | Each argument's declared `RequiredWith` list is exactly the rest of its own group. |
| `ExpressRouteCircuit.ConflictsWith` | azurerm/internal/services/network/express_route_circuit_resource.go:97-135 | Each argument's declared `ConflictsWith` list is exactly the whole other group. |
| `ExpressRouteCircuit.ArgumentListsConsistent` | azurerm/internal/services/network/express_route_circuit_resource.go:97-135 | The declared `ConflictsWith` lists are symmetric. Each `RequiredWith` stays within one group. Each argument conflicts exactly with the other group. |
| `ExpressRouteCircuit.ArgumentRulesAdmitOneWholeGroup` | azurerm/internal/services/network/express_route_circuit_resource.go:97-135 | The `RequiredWith`/`ConflictsWith` rules hold iff the set arguments are none, the whole provider group {service_provider_name, peering_location, bandwidth_in_mbps}, or the whole port group {bandwidth_in_gbps, express_route_port_id}. |
| `ExpressRouteCircuit.ToInt32` | azurerm/internal/services/network/express_route_circuit_resource.go:231 | The int32 conversion lands in the int32 range. It agrees with its input modulo 2^32, and is the identity on in-range values. |
| `ExpressRouteCircuit.ShapePayload` | azurerm/internal/services/network/express_route_circuit_resource.go:210-235 | Name, location, SKU and tags are set. On create there is exactly one of `ExpressRoutePort` and `ServiceProviderProperties`, the port iff `express_route_port_id` is set and non-empty, and no classic-operations flag. On update the branch and service-managed fields of the circuit read back are kept, and the flag is set. The provider branch gets name, location and the int32 bandwidth in Mbps. The port branch gets the port ID and the bandwidth in Gbps. |
| `ExpressRouteCircuit.CreatePayloadCarriesConfiguredGroup` | azurerm/internal/services/network/express_route_circuit_resource.go:97-235 | When a new circuit's configuration passes the argument rules and its `express_route_port_id` is not the empty string, the payload carries exactly the configured values of the group used, and nothing of the other group. The empty port ID is excluded because `validate.ExpressRoutePortID` rejects it; with it `d.GetOk` is false and the provider branch is taken with zero values. |
| `ExpressRouteCircuit.CreateUpdate` | azurerm/internal/services/network/express_route_circuit_resource.go:154-237 | On create, a failed lookup other than not-found is an error, and an existing circuit with a non-empty ID is an import-as-exists error. On update, any failed lookup, not-found included, and a failed refresh of the existing circuit, are errors. Otherwise the payload is shaped as above. |
| `ExpressRouteCircuit.CreationRefresh` | azurerm/internal/services/network/express_route_circuit_resource.go:383-396 | Not-found is the pending state "NotFound" with no error. Any other error fails the poll with state "". A found circuit is the target state "Exists", with the circuit as result. |

## Left out

- Every call to the vendor API (`GetConfiguration`, `Update`, `UpdateSourceControl`, `GetSourceControl`, `DeleteSourceControl`, `Get`, `CreateOrUpdate`, `Delete`, and waiting on futures) is network I/O. Their outcomes are inputs to the model, and the source-control calls are recorded in Create's outcome.
- The per-name locks (`locks.ByName`/`UnlockByName`) exist only for concurrency control.
- The creation poll loop (`StateChangeConf`: pending/target states, poll interval, three consecutive targets, timeouts) and the resource timeouts are timing and retry logic. Only the refresh classification is modelled.
- The express route circuit's steps after the payload is built are not modelled: `CreateOrUpdate`, the poll, the final `Get`, `SetId`, and the hand-off to Read. Its Read and Delete are only API reads and writes; the SKU flatten Read uses is modelled.
- The source-control resource's Delete is a single API call.
- `metadata.Decode`, `parse.WebAppID` and setting the resource ID are not modelled. Create starts from the decoded configuration with a parsed ID, and Read takes the app ID as given.
- `azure.NormalizeLocation` and `tags.Expand` are not part of this model. `ShapePayload` takes their results as inputs.
- Validation functions (`validate.*`, `StringInSlice`, `StringIsNotEmpty`) and the case-insensitive diff suppression on `tier`/`family` are not modelled: there is no case folding on strings.
- `bandwidth_in_gbps` is a float64 in the source. The model carries it as a `real` and only passes it through.
- `CircuitProperties` carries one service-managed field (`serviceKey`) as a stand-in for all the fields an update keeps from the circuit it read back.
- `SourceControlResource.Create`: the site patch is modelled only by its SCM type, the one field Create sets. `SitePatch` has no other fields.
- Schema declarations beyond the argument groups and `MaxItems` (types, `Optional`/`Computed`, defaults, `Sensitive`) are not modelled.

Behaviour modelled as written in the source:
- On create, `allow_classic_operations` is not put into the payload. It is sent only on update, as `ShapePayload` states.
- On update, the not-found exemption after the first `Get` tests the response of the still-empty payload rather than the one just read. So a not-found circuit is an error there too, as `CreateUpdate` states.
- The site patch always sets ScmType `LocalGit`, whatever `scm_type` asks for.
