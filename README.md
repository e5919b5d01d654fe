# Runtime-component customize engine

A Dafny model of the reconcile-time "customize" engine of a Kubernetes
runtime-component operator. Each reconcile, the engine takes one
`RuntimeComponent` descriptor and writes it onto the objects the operator
owns:

- the Service: primary and additional ports, selector and type;
- the Route: target, target port and the TLS termination state machine;
- the pod template: application container, probes, security context,
  service account, annotations and affinity;
- the StatefulSet: volume-claim templates and volume mount;
- the HorizontalPodAutoscaler: scale target and bounds;
- the ServiceAccount: image pull secrets.

The engine also validates the descriptor's storage size and keeps the
status-condition ledger. It parses the namespaces the operator watches.

The behaviour modelled is the behaviour the repository's unit-test suite
`utils/utils_test.go` asserts. The implementation it calls is not part of
this model. Where the suite says nothing, the model follows the operator's
design: fresh recomputation of the Service's ports, upsert of the volume
mount by name, and `", "` as the separator of required-field messages.
Where neither the suite nor the design says anything, the model makes
these choices:

- **Additional port targets.** An additional port with no target port
  targets its own port number. The design gives this default only for
  the primary port. The one unset target in the suite (test line 36) is
  never asserted.
- **Unset watch variable.** With the variable unset, `GetWatchNamespaces`
  returns no namespace and the error `WATCH_NAMESPACE must be set`. The
  suite only tests set values (test lines 1137-1167).
- **Node ports.** A requested node port is kept on a NodePort Service
  and zeroed on every other type, LoadBalancer included. The suite only
  tests ClusterIP and NodePort.
- **Probe scheme.** Default probes always use the `HTTPS` scheme, as
  every expected default probe in the suite does (test lines 97-134). The
  design makes the scheme depend on whether the port uses TLS. The model
  has no notion of a TLS port.
- **Passthrough target port.** A passthrough route with no port name
  targets `"<port>-tcp"`, as the other states do. The design says a
  passthrough route uses the port name only. The suite's passthrough
  step sets a port name (test line 288).

The model has two layers:

- **Spec functions on values.** `DesiredPorts`, `RouteTLS`,
  `ResolvedProbe`, `PersistedSpec`, `Upsert` and the like. Lemmas state
  what the unit tests and the design promise about them.
- **Methods on objects.** The Go functions update their target in place.
  The Service, Route, pod template, StatefulSet, autoscaler, status and
  ServiceAccount are classes. Each `Customize*` method's `modifies`
  names its target, and its `ensures` ties the new state to the spec
  functions. Loops (port list building, mount upsert, condition lookup,
  namespace trimming, secret lookup, affinity term extension) are
  `while` loops proved against the same functions.

Files, one module each:

- `wrappers.dfy`: `Option`.
- `text.dfy`: trimming, splitting, joining and decimal rendering.
- `kube.dfy`: the Kubernetes object types.
- `descriptor.dfy`: the descriptor.
- `labels.dfy`: the label and annotation merge shared by every object.
- `services.dfy`, `routes.dfy`, `affinity.dfy`, `podspecs.dfy`,
  `persistence.dfy`, `autoscaling.dfy`, `serviceaccounts.dfy`: one
  module per object kind.
- `validation.dfy`, `conditions.dfy`, `namespaces.dfy`.

Where the operator's prose documentation and the unit tests disagree, the
model follows the tests:

- **Route termination.** A route with no termination gets exactly
  `{termination: reencrypt}` (test lines 236-251). The documentation's
  wording suggests a platform default.
- **Security context.** The default container security context has
  `readOnlyRootFilesystem: false` (test lines 735-743). The documentation
  calls it read-only.
- **Claim templates.** They are installed only when the StatefulSet has
  none (the "if vct == 0" comment at test line 812). The documentation
  speaks of install-or-overwrite.
- **Absent probes.** A probe slot the descriptor leaves unset stays unset
  (test lines 679-697). The design installs the default probe there as
  well as for the empty probe.

## Model

| member | source | states |
|---|---|---|
| Labels.ComponentLabelsContents | utils/utils_test.go:240-243 | every derived object carries `app.kubernetes.io/instance` = the descriptor's name; the descriptor's labels are kept; `part-of` falls back to the application |
| Labels.MergeMapsKeepsForeignKeys | utils/utils_test.go:240-243 | merging labels and annotations never drops a key; the descriptor's value wins on shared keys |
| Labels.MergeMapsIdempotent | utils/utils_test.go:318-336 | merging the same labels and annotations twice changes nothing |
| Labels.CustomizedMetaIdentity | utils/utils_test.go:326-334 | customized metadata has the instance label, keeps every existing label and annotation key, and keeps the name and namespace |
| Services.BuildPorts | utils/utils_test.go:380-397 | the port-list loop yields the primary port, then each additional port normalised, in order |
| Services.CustomizeService | utils/utils_test.go:318-344 | the Service's type, selector (instance label only) and whole port list are recomputed from the descriptor; metadata is merged |
| Services.DesiredPortsShape | utils/utils_test.go:380-417 | one port per additional port plus the primary, so a shrunken descriptor leaves no stale port |
| Services.PrimaryPortDefaults | utils/utils_test.go:327-377 | the primary target port defaults to the port; the node port is the requested one only on a NodePort Service, else 0 |
| Services.DefaultPortNameReadsBack | utils/utils_test.go:394 | the default port name `"<port>-tcp"` reads back to its port number |
| Services.DefaultPortNamesDistinct | utils/utils_test.go:394 | different ports get different default names |
| Services.AdditionalPortNormalised | utils/utils_test.go:387-395 | an additional port keeps its port and name; it is named `"<port>-tcp"` when unnamed and targets itself when no target is set |
| Services.UnnamedAdditionalPortsDistinct | utils/utils_test.go:393-394 | two unnamed additional ports on different numbers get distinct names |
| Services.PrimaryPortScenario | utils/utils_test.go:322-334 | a ClusterIP Service on 8443 with no target port yields exactly one port 8443→8443 with node port 0; it is named `8443-tcp` without a port name and `myservice` with the port name the route test left on the shared Service |
| Services.TargetAndNodePortScenario | utils/utils_test.go:346-378 | target port 3333 and NodePort node port 3011 are used as given |
| Services.AdditionalPortsScenario | utils/utils_test.go:380-417 | three ports with `https` 9080→9000 and `3333-tcp`; then two ports with node port 3000 on the second; then one port |
| Services.SecondReconcileAsWrittenFails | utils/utils_test.go:399-408 | the second block's expectation, node port 3000 on port 0, cannot hold |
| Services.SecondReconcileIntendedHolds | utils/utils_test.go:399-408 | node port 3000 is on port 1, the first additional port |
| Routes.RouteTLS | utils/utils_test.go:236-302 | the TLS termination is the requested one, reencrypt when none is requested |
| Routes.CustomizeRoute | utils/utils_test.go:229-303 | the route targets Service `<name>` with weight 100 on the primary port's name; its TLS block follows the state machine; host and path are copied from a route sub-spec; annotations include the sub-spec's |
| Routes.RouteTLSConsistent | utils/utils_test.go:236-302 | every TLS block the state machine yields has the field set its termination allows |
| Routes.UnsetTerminationIsBareReencrypt | utils/utils_test.go:236-251 | no termination gives exactly `{termination: reencrypt}` and no certificates |
| Routes.EdgeTLS | utils/utils_test.go:253-269 | edge sets certificate, key and CA and leaves the destination CA empty |
| Routes.ReencryptTLS | utils/utils_test.go:271-285 | reencrypt sets certificate, key, CA and destination CA |
| Routes.PassthroughTLS | utils/utils_test.go:287-302 | passthrough clears all four certificates |
| Routes.RouteTargetsPrimaryServicePort | utils/utils_test.go:247 | the route's target port is the name of the Service's primary port |
| Routes.RouteTerminationScenario | utils/utils_test.go:236-302 | the test's four steps: none, edge, reencrypt, passthrough; the target port is `8443-tcp`, then `myservice` |
| Routes.RouteMetadataScenario | utils/utils_test.go:240-243 | a fresh route's instance label is `my-app` and its annotations are exactly `{key2: value2}` |
| Affinities.AppendToEveryTerm | utils/utils_test.go:498-561 | the loop appends the added expressions to every required term, or makes one term when there is none |
| Affinities.BuildLabelRequirements | utils/utils_test.go:528-552 | the loop turns each node-affinity label into its `In` expression, in order |
| Affinities.CustomizeAffinity | utils/utils_test.go:498-602 | the affinity is the composition of the user's affinity with the architecture and label expressions |
| Affinities.PodAffinityCopied | utils/utils_test.go:564-602 | pod affinity and anti-affinity are copied unchanged |
| Affinities.NodeAffinityCopiedWhenNothingAdded | utils/utils_test.go:498-561 | without architectures or labels the user's node affinity is kept as is |
| Affinities.UserExpressionsKeptFirst | utils/utils_test.go:545-561 | each required term keeps the user's expressions first, then the added ones; preferred terms are kept |
| Affinities.ArchitectureEverywhere | utils/utils_test.go:789-800 | with architectures, every required term holds the arch requirement, and one preferred term of weight 1 is added |
| Affinities.LabelValuesSplitAndTrimmed | utils/utils_test.go:528-552 | a label value becomes an `In` expression on its key with the comma-separated, trimmed values |
| Affinities.TwoLabelValues | utils/utils_test.go:528-552 | `"label1, label2"` gives `["label1", "label2"]` |
| Affinities.NodeAffinityLabelScenario | utils/utils_test.go:498-561 | the node-affinity test: the user's expressions, then the label expression, in the required term; the preferred term is kept |
| Affinities.ArchitectureScenario | utils/utils_test.go:789-800 | `ppc64le` is in the required expression and the weight-1 preferred term |
| PodSpecs.CustomizePodSpec | utils/utils_test.go:612-801 | the pod template gets merged metadata with the pod annotations, and the pod spec the descriptor asks for |
| PodSpecs.ProbeResolution | utils/utils_test.go:676-720 | an absent probe stays absent, the empty probe installs the default, and any other probe is used verbatim |
| PodSpecs.DefaultProbeShape | utils/utils_test.go:97-139 | for every descriptor, default probes are an HTTPS GET on the service port with period 10, timeout 2 and no success threshold; readiness waits 10 s and tolerates 10 failures, liveness 60 s and 3, startup 0 s and 20; the three paths are distinct |
| PodSpecs.SecurityContextResolution | utils/utils_test.go:734-782 | a given security context is used verbatim; else all capabilities are dropped, with no privilege, no escalation, run as non-root and a writable root filesystem |
| PodSpecs.PodAnnotationsPrecedence | utils/utils_test.go:612-674 | StatefulSet annotations beat Deployment annotations; without either only the descriptor's apply; the maps are not merged |
| PodSpecs.PodSpecShape | utils/utils_test.go:765-800 | one container with one port on the resolved target port; the service account is the descriptor's, else its name |
| PodSpecs.CustomizedPodSpecIdempotent | utils/utils_test.go:722-801 | customizing a pod spec twice gives the same spec |
| PodSpecs.CustomizedMetaIdempotent | utils/utils_test.go:612-674 | customizing pod metadata twice gives the same metadata |
| PodSpecs.PodAnnotationsScenario | utils/utils_test.go:612-674 | none, then `depAnno`, then `setAnno`, then `setAnno` alone |
| PodSpecs.ProbesScenario | utils/utils_test.go:676-720 | no probes, then the defaults from empty probes, then custom probes verbatim |
| PodSpecs.PodSpecScenario | utils/utils_test.go:722-801 | one container and one port 3333; service account `my-app`, then the custom one; default then custom security context; arch `ppc64le` |
| Persistence.UpsertMountLoop | utils/utils_test.go:823-833 | the mount loop updates the mount of that name in place, or appends it |
| Persistence.CustomizePersistence | utils/utils_test.go:803-836 | the StatefulSet's spec becomes the persisted spec; its metadata is untouched |
| Persistence.UpsertMountContents | utils/utils_test.go:823-833 | after the upsert there is a mount of that name with the path; other mounts are kept in order; the length grows only when absent |
| Persistence.UpsertMountIdempotent | utils/utils_test.go:823-833 | upserting the same mount twice changes nothing |
| Persistence.NoStorageNoChange | utils/utils_test.go:803-836 | without storage the StatefulSet spec is unchanged |
| Persistence.TemplatesInstalledOnce | utils/utils_test.go:810-814 | an empty template list receives exactly the claim; a non-empty one is kept |
| Persistence.ClaimMounted | utils/utils_test.go:823-833 | with a mount path, the first container mounts the claim's name at that path |
| Persistence.PersistedSpecIdempotent | utils/utils_test.go:803-836 | persisting twice gives the same spec |
| Persistence.PersistenceScenario | utils/utils_test.go:803-836 | the given template's kind is kept and the path mounted; then the default `pvc` claim sized `10Mi` and its mount |
| Autoscaling.CustomizeHPA | utils/utils_test.go:924-949 | the autoscaler's spec is the one its sub-spec asks for; metadata is merged |
| Autoscaling.ScaleTargetMatchesWorkload | utils/utils_test.go:924-949 | the target is `apps/v1` `<name>`: a StatefulSet exactly when storage is configured, else a Deployment; the bounds are copied |
| Autoscaling.AutoscalerScenario | utils/utils_test.go:924-949 | min 2, max 3, CPU 30 on Deployment `my-app`; StatefulSet once storage is set |
| Validation.CreateValidationError | utils/utils_test.go:991-1001 | the message is `validation failed: ` followed by the given text |
| Validation.RequiredFieldMessage | utils/utils_test.go:1003-1013 | the message starts `must set the field(s): ` and, for one field, ends with it |
| Validation.RunEnd | utils/utils_test.go:969-988 | the end of the longest run of one character class |
| Validation.IsQuantityMatchesPattern | utils/utils_test.go:969-978 | the greedy scanner accepts exactly the language of the quantity regular expression |
| Validation.GreedyFindsSplit | utils/utils_test.go:969-988 | any split of a size into the regular expression's five parts is found by the greedy scan |
| Validation.Validate | utils/utils_test.go:951-989 | succeeds exactly when storage has a claim template or a non-empty size matching the quantity grammar; an error is returned exactly on failure |
| Validation.ValidateErrors | utils/utils_test.go:951-989 | every error has the `validation failed: ` prefix; a missing size names `spec.statefulSet.storage.size`; a malformed one quotes the size and the grammar |
| Validation.ClaimTemplateSkipsSizeCheck | utils/utils_test.go:980-988 | storage with a claim template is never rejected |
| Validation.TestSizes | utils/utils_test.go:969-988 | `10Mi` is a quantity and `size` is not |
| Validation.ValidateMissingSizeScenario | utils/utils_test.go:955-967 | an empty size fails with the required-field message |
| Validation.ValidateMalformedSizeScenario | utils/utils_test.go:969-978 | size `size` fails with the parse message |
| Validation.ValidateGoodSizeScenario | utils/utils_test.go:980-988 | size `10Mi` passes with or without a claim template |
| Validation.MessagesScenario | utils/utils_test.go:991-1013 | `Test Error` and `Required` messages; several fields are comma-separated |
| Conditions.FindCondition | utils/utils_test.go:1092-1112 | the index of the first condition of the type; none exactly when no condition has it |
| Conditions.GetCondition | utils/utils_test.go:1092-1112 | the lookup loop returns the first condition of the type, or none; the ledger is only read |
| Conditions.SetCondition | utils/utils_test.go:1114-1130 | the ledger after setting is the upsert: the first condition of the type replaced in place, else the condition appended |
| Conditions.UpsertLength | utils/utils_test.go:1114-1130 | setting keeps the length when the type is present and grows it by one otherwise |
| Conditions.FindAfterUpsert | utils/utils_test.go:1114-1130 | after setting, reading the type gives the condition set |
| Conditions.UpsertKeepsOtherTypes | utils/utils_test.go:1114-1130 | conditions of other types keep their place and value |
| Conditions.UpsertIdempotent | utils/utils_test.go:1114-1130 | setting the same condition twice changes nothing the second time |
| Conditions.UpsertKeepsTypesDistinct | utils/utils_test.go:1114-1130 | a ledger with one condition per type keeps that property |
| Conditions.ConditionsScenario | utils/utils_test.go:1092-1130 | a true `Reconciled` condition reads back at index 0; an empty ledger reads nothing; setting over an unset entry updates index 0 |
| Namespaces.GetWatchNamespaces | utils/utils_test.go:1132-1168 | an unset variable gives no namespace and the "must be set" error; a set one gives its comma-separated entries, trimmed |
| Namespaces.ClusterWideIff | utils/utils_test.go:1132-1236 | every namespace is watched exactly when the value has no comma and only white space |
| Namespaces.WatchNamespacesShape | utils/utils_test.go:1132-1168 | one entry per comma plus one, each trimmed and comma-free; the untrimmed entries join back to the value |
| Namespaces.OneEntryScenario | utils/utils_test.go:1137-1151 | `""` gives `[""]`; `ns1` gives `["ns1"]` |
| Namespaces.ThreePaddedEntries | utils/utils_test.go:1153-1167 | three comma-separated entries, each a name padded with white space, give the three names trimmed, in order |
| Namespaces.SeveralEntriesScenario | utils/utils_test.go:1153-1167 | `ns1,ns2,ns3` and `" ns1   ,  ns2,  ns3  "` both give `["ns1", "ns2", "ns3"]` |
| Namespaces.IsClusterWide | utils/utils_test.go:1209-1236 | every namespace is watched exactly for the list holding only the empty entry |
| Namespaces.ClusterWideScenario | utils/utils_test.go:1209-1236 | `["namespace"]` no, `[""]` yes, two namespaces no |
| ServiceAccounts.CustomizeServiceAccount | utils/utils_test.go:838-858 | the account's metadata is merged, and its pull secrets become the old ones followed by the descriptor's pull secret and the referenced existing secret, each only when missing |
| ServiceAccounts.ContainsSecret | utils/utils_test.go:838-858 | the lookup loop finds a secret exactly when it is listed |
| ServiceAccounts.MergeNeverRemoves | utils/utils_test.go:838-858 | the merge keeps every entry in place; it adds only the pull secret and the existing referenced secret, at most two; both end up present |
| ServiceAccounts.MissingSecondaryIgnored | utils/utils_test.go:847-856 | a reference to a secret that does not exist adds nothing |
| ServiceAccounts.MergeIdempotent | utils/utils_test.go:838-858 | merging twice changes nothing the second time |
| ServiceAccounts.ServiceAccountScenario | utils/utils_test.go:838-858 | `mysecret` first, then `my-new-secret` second |
| Text.TrimSpaceIdempotent | utils/utils_test.go:1161-1167 | trimming a trimmed entry changes nothing |
| Text.TrimSpaceEmptyIff | utils/utils_test.go:1137-1143 | an entry trims to empty exactly when it is all white space |
| Text.SplitAndTrimClean | utils/utils_test.go:1132-1168 | the entries are as many as the separators plus one, each trimmed and free of the separator |
| Text.JoinSplit | utils/utils_test.go:1132-1168 | joining the split entries gives the value back |
| Text.SplitJoin | utils/utils_test.go:1132-1168 | splitting joined separator-free entries gives them back |
| Text.ParseIntToString | utils/utils_test.go:247 | the decimal rendering of a port reads back to the port |
| Text.IntToStringInjective | utils/utils_test.go:394 | different numbers render differently |

## Left out

- CustomizeDeployment and CustomizeStatefulSet update strategies (test lines 179-228) are not modelled. They are named outside the modelled core.
- CustomizeNetworkPolicy, CustomizeKnativeService, CustomizeServiceMonitor and CustomizeIngress are not modelled. They transcribe records between foreign types.
- ErrorIsNoMatchesForKind, EnsureOwnerRef and GetOpenShiftAnnotations are not modelled. They classify API errors or copy metadata trivially.
- Namespaces.GetWatchNamespaces takes the variable's value as a parameter. Reading the process environment is I/O.
- ServiceAccounts.CustomizeServiceAccount takes the namespace's existing secrets as a set. The lookup through the cluster client is a foreign call.
- Validation.Validate checks the quantity regular expression only. The resource library's further checks (one decimal point, known suffixes, numeric range) are library code not modelled. So are its `String()` rendering and the claim's size as a parsed quantity: the size is kept as the descriptor's text.
- Affinities.CustomizeAffinity returns a fresh affinity value, which the pod spec takes. The Go code fills a pointer the caller passes in.
- Node-affinity labels are a sequence of pairs, not a map. Go iterates maps in random order, so the order of the label expressions is not fixed by the source.
- Conditions.SetCondition does not set the last-transition time. The clock is I/O.
- PodSpecs.CustomizePodSpec models the application container's ports, probes and security context. Its name, image, pull policy, environment, resources and volumes are not modelled; no unit-test assertion pins them down.
- The descriptor always has a Service sub-spec; the model assumes the operator's initialisation defaults it before any customize call. So the design's case of no Service cannot be represented. PodSpecs.AppContainer always emits the container port, where the design emits it only when a Service is configured. Where the suite's persistence, autoscaler and service-account tests give no Service, the model's scenarios use a ClusterIP Service on port 0, which none of their assertions reads.
- Persistence.DefaultClaim labels the claim with the component labels. The claim's labels appear in no assertion.
- Logging and the test-table plumbing are not modelled.

## Findings

| source | as written | input that shows it | evidently intended | confidence | as-written member | corrected member |
|---|---|---|---|---|---|---|
| utils/utils_test.go:399-408 | after dropping the last additional port and setting node port 3000 on the first one, the block expects `Ports[0].NodePort == 3000`; the block's table is also never passed to `verifyTests` | NodePort Service on 8443 with one additional `https` 9080→9000 port, node port 3000: the primary port has node port 0 and `https`, the second port, has node port 3000 | expect node port 3000 on `Ports[1]`, the first additional port, and verify the table | not executed | Services.SecondReconcileAsWrittenFails | Services.SecondReconcileIntendedHolds |
