# Verification model of the ioFog operator's ControlPlane controller

The ioFog operator is a Kubernetes controller. For each `ControlPlane` object it keeps three groups of objects in
the cluster (the router, a NATS hub, and the ioFog Controller) by reconcile passes that read and write single
objects of the API server. Any write can be refused, any pass can stop half way, other writers act in between, and
three sub-reconcilers run side by side. This project models the parts of that controller that carry state and
proves what they keep over whole runs. `dafny verify dfyconfig.toml` checks all of it.

## Layout

| area | modules |
|---|---|
| cluster routes of the NATS hub: print, parse, merge, and the file around them | `NatsRoutes`, `NatsRouteTheorems`, `NatsMergeTheorems`, `ServerConf`, `ServerConfTemplate` |
| one NATS pass as ordered writes, and runs of passes cut short anywhere | `NatsCluster`, `NatsRuns`, `NatsConfRace`, `NatsSecrets`, `NatsScaleDown`, `NatsSpecTheorems` |
| the same pass as the imperative code that issues those writes | `NatsReconciler` |
| TLS secrets: symbolic certificates, host lists, the router's secrets | `Certs`, `NatsHosts`, `RouterSecrets` |
| storage sizes | `NatsStorage` |
| the router configuration merge | `RouterConfig`, `RouterMergeTheorems`, `RouterUpdateTheorems` |
| status conditions, the fan-in of three results, the reconcile loop | `Conditions`, `FanIn`, `ControlPlaneMachine`, `ControlPlaneReconciler` |
| three sub-reconcilers interleaved call by call | `Interleaving`, `PassInterleaving` |
| Go's string and decimal functions | `GoStrings`, `Decimal`, `Wrappers` |

The loops of the modelled code are methods with loops, and the objects it updates in place are classes with fields;
each such method is proved equal to a function, and the theorems are about that function. A `budget` counts the writes
that the store still accepts: a pass with budget k has executed its first k writes, so a statement for all budgets
covers every point at which a pass can stop.

## Where the code differs from what one would expect

Each of these is proved, as an equivalence wherever a condition decides it.

- A route added by the Controller between the pass's two reads of the ConfigMap is overwritten, because the update
  carries the version of the second read (`NatsConfRace.AddedRouteStaysIff`). Once there is a
  ConfigMap, a route added at any other moment of any run stays (`NatsConfRace.AddedAnywhereStays`).
- Each sub-reconciler looks the image pull secret up before it creates a service account. The end of a pass depends
  on how the sub-reconcilers interleave exactly for five names of that secret: the three that the NATS
  sub-reconciler stores before its own lookup (`nats-operator-seed`, `nats-creds-sys-admin-hub`, the JetStream key),
  and the two that it deletes and stores again (`nats-site-server`, `nats-mqtt-server`). The operator's other secrets
  do no harm, because whoever would create one looks it up first and returns when it is missing
  (`PassInterleaving.OrderIrrelevantIff`).
- The object update that follows the status update sends every struct field of the spec, present or not. A spec that
  leaves some out is changed by it, so the object just marked ready reads as updating and is reconciled once more
  (`ControlPlaneMachine.ReadyLeftIff`).
- Printing and parsing routes is the identity exactly on clean routes: non-empty, no comma, no closing bracket, no
  blank or quote at an edge. An IPv6 literal is lost (`ServerConf.Ipv6RouteIsLost`).
- `nats-mqtt-server` keeps its old host list when a pass stops between the two deletions
  (`NatsSecrets.MqttFreshIff`, `NatsSecrets.MqttStaysStale`). The next replica change is what replaces it.
- Passes of one router configuration without a version string change the stored list for ever, and make it longer each
  time from the third on, exactly when an entry that the operator does not update has a type that the configuration
  names without updating it (`RouterMergeTheorems.StopsChangingIff`, `RouterMergeTheorems.GrowsForever`); otherwise
  the second merge is the last to change anything.
- A JetStream key secret that exists without a key stops every NATS pass after its bootstrap secrets: over whole runs
  the certificates, the configuration and the StatefulSet stay as they are (`NatsSecrets.EmptyKeyBlocks`). The
  operator never makes such a secret itself (`NatsSecrets.StuckIffStartedStuck`).
- An existing TLS profile or listener of the operator's own can stay beside its new version after a router merge: when
  the new configuration also names another entry of that type, the last existing one stands in for it
  (`RouterUpdateTheorems.OldProfileStays`, with the exact condition in `ProfilesReplaced` and `ListenersReplaced`).
- The lookup in the set of desired routes never decides anything (`NatsRouteTheorems.SetLookupNeverFires`), and the
  trailing `op.Continue` after dispatch is unreachable (`ControlPlaneMachine.TrailingContinueUnreachable`).
- The comment on `parseRoutesFromServerConf` says that nil means no routes line; nil is also the answer when all
  segments of a non-empty list are blank. The model follows the code.

## Assumptions

`op.Reconciliation.IsFinal` means that an error, End or Requeue is set; `op.Reconcile` sets End and nothing else. `SetStatusCondition` overwrites the first
condition of its type or appends. A status or object update is refused when the object changed since it was read.
An update in the operator's encoding of a spec already in that encoding changes nothing. The API server refuses to
change the type of a secret. Get reads the latest stored object. Values printed into `server.conf` before its routes line do not contain the
text `routes:`. Replica counts are 32-bit. Generated keys are opaque, and a new one is not empty.

## Model

| member | source | states |
|---|---|---|
| `Decimal.ItoaRoundTrip` | controllers/controlplanes/nats/config.go:253-262 | reading a printed 64-bit integer back gives the same integer; the ordinal classifier depends on it |
| `Decimal.ItoaInjective` | controllers/controlplanes/nats/certs.go:117 | equal replica annotations mean equal replica counts |
| `NatsRoutes.ClusterRoutesFormat` | controllers/controlplanes/nats/config.go:209-215 | the formatted list is the print of the ordinal routes 0..replicas-1 with the default port |
| `NatsRoutes.ParseRoutesFromServerConf` | controllers/controlplanes/nats/config.go:221-250 | the loop yields the cleaned non-empty segments between the first `[` after the first `routes:` and the next `]`; nil and empty are told apart |
| `NatsRoutes.DesiredK8sRoutes` | controllers/controlplanes/nats/config.go:277-284 | the quoted list is the print of the ordinals, and the set holds exactly their unquoted texts |
| `NatsRoutes.CollectOtherRoutes` | controllers/controlplanes/nats/config.go:286-304 | with the two lookup sets it collects the kept routes each once |
| `NatsRoutes.ClusterRoutesMerge` | controllers/controlplanes/nats/config.go:268-309 | on every path, fallbacks included, the result is the print of the merged route list |
| `NatsRouteTheorems.OrdinalRouteShape` | controllers/controlplanes/nats/config.go:253-262 | a route is classified as the operator's own iff it is the prefix, an integer Go can read, and the suffix |
| `NatsRouteTheorems.FormatOfTwo` | controllers/controlplanes/nats/config.go:207-215 | the exact text of the list for two replicas, brackets, quotes, separator and port included |
| `NatsRouteTheorems.OrdinalIsK8s` | controllers/controlplanes/nats/config.go:253-262 | every route the operator prints is classified as its own |
| `NatsRouteTheorems.OrdinalsDistinct` | controllers/controlplanes/nats/config.go:278-280 | different ordinals have different routes |
| `NatsRouteTheorems.SetLookupNeverFires` | controllers/controlplanes/nats/config.go:293-298 | the classifier has already caught every route that the set lookup would catch |
| `NatsRouteTheorems.OtherMembers` | controllers/controlplanes/nats/config.go:286-304 | a route is kept iff it is the cleaned form of some existing route and is not the operator's |
| `NatsRouteTheorems.OtherDistinct` | controllers/controlplanes/nats/config.go:286-304 | no kept route appears twice |
| `NatsRouteTheorems.OtherOrder` | controllers/controlplanes/nats/config.go:286-304 | kept routes stand in the order of their first occurrence |
| `NatsRouteTheorems.MergeShape` | controllers/controlplanes/nats/config.go:264-309 | the merged list is ordinals 0..replicas-1 in order, then exactly the non-ordinal existing routes in first-occurrence order, without duplicates |
| `NatsRouteTheorems.ParsedFree` | controllers/controlplanes/nats/config.go:221-250 | whatever the file holds, a parsed route is not empty and has no comma and no closing bracket |
| `NatsRouteTheorems.PrintedParses` | controllers/controlplanes/nats/config.go:221-250 | what the parser makes of any printed list of comma- and bracket-free routes: their cleaned forms, blank ones dropped |
| `NatsRouteTheorems.PrintParseRoundTrip` | controllers/controlplanes/nats/config.go:207-250 | printing then parsing is the identity iff every route is clean |
| `NatsMergeTheorems.MergeFixedPoint` | controllers/controlplanes/nats/config.go:264-309 | for a fixed replica count, merging the merge's own output changes nothing iff every kept route is clean |
| `NatsMergeTheorems.FallbacksAgree` | controllers/controlplanes/nats/config.go:268-309 | the merge equals the freshly formatted list iff nothing was parsed, or only ordinals were and the port is the default one |
| `NatsMergeTheorems.CleanRound` | controllers/controlplanes/nats/config.go:264-309 | after one round over clean routes, the new file parses to exactly the merged list, all of it clean |
| `NatsMergeTheorems.RouteSurvivesRound` | controllers/controlplanes/nats/config.go:264-309 | a clean route of someone else survives a round whatever else the file holds |
| `ServerConf.RoutesLineFoundFirst` | controllers/controlplanes/nats/config.go:76-205 | for all parameter values, the parser's first `routes:` is the template's own |
| `ServerConf.EscapedKey` | controllers/controlplanes/nats/config.go:172-177 | escaping quotes cannot create the routes key |
| `ServerConf.ServerConfRoundTrip` | controllers/controlplanes/nats/config.go:179-250 | parsing the built file gives back the printed routes iff all of them are clean |
| `ServerConf.Ipv6RouteIsLost` | controllers/controlplanes/nats/config.go:231-235 | a concrete route with an IPv6 literal is not read back |
| `ServerConf.HeaderLineInServerConf` | controllers/controlplanes/nats/config.go:81-108 | each line before the routes line but the first stands in the file as a line of its own |
| `ServerConf.FooterLineInServerConf` | controllers/controlplanes/nats/config.go:108-146 | so does each line after it |
| `ServerConf.KeyInServerConf` | controllers/controlplanes/nats/config.go:98 | the file holds the JetStream key between quotes on a line of its own: the key text itself when it has no quote, its escaped text always |
| `ServerConf.EscapeRoundTrip` | controllers/controlplanes/nats/config.go:172-177 | an escaped text reads back as the text: nothing is lost |
| `ServerConf.KeyDecidesServerConf` | controllers/controlplanes/nats/config.go:181-205 | files written for two different keys differ, whatever the keys hold |
| `ServerConfTemplate.NamesDiffer` | controllers/controlplanes/nats/config.go:183-203 | different placeholders have different names, so at most one stands at any place |
| `ServerConfTemplate.Replace` | controllers/controlplanes/nats/config.go:204 | the scanning loop expands each placeholder once, from left to right, and never scans a value |
| `ServerConfTemplate.ExpandPieces` | controllers/controlplanes/nats/config.go:204 | expanding a template piece by piece: literal text stays, the bare dollar sign before SELFNAME too, each placeholder becomes its value |
| `ServerConfTemplate.TemplateExpands` | controllers/controlplanes/nats/config.go:81-205 | for all parameter values, dollar signs and placeholder names in them included, expanding the template gives the file line by line |
| `ServerConfTemplate.Build` | controllers/controlplanes/nats/config.go:181-205 | so building by replacement gives the file that the theorems on routes and keys are about |
| `NatsStorage.ToNatsSizeIdempotent` | controllers/controlplanes/nats/config.go:55-74 | converting a size twice is converting it once, for every string |
| `NatsStorage.ToNatsSizeMeaning` | controllers/controlplanes/nats/config.go:55-74 | in every letter case, a binary suffix of the trimmed text becomes its decimal letter; any other text is only trimmed |
| `NatsStorage.FileStoreFitsClaim` | controllers/controlplanes/reconcile.go:625-637 | for every n and binary suffix, the NATS file-store limit is the decimal reading of the size and never exceeds the volume claim made from the same size |
| `Certs.GenerateSecret` | internal/util/certs/certs.go:79-163 | the loop over hosts gives the trimmed comma-separated parts as names; without an authority the certificate is self-signed and its own ca.crt, with one it is signed by it and carries it |
| `Certs.GeneratedMeaning` | internal/util/certs/certs.go:79-163 | name, subject and key as given, one trimmed name for each comma-separated part, and the authority's signature and certificate or its own |
| `NatsHosts.NatsSiteServerHosts` | controllers/controlplanes/nats/certs.go:39-56 | the text built piece by piece is the join of the replica, service and address hosts |
| `NatsHosts.SansNameReplicas` | internal/util/certs/certs.go:111-119 | a certificate for the printed list names every replica's host |
| `NatsHosts.SansExactly` | controllers/controlplanes/nats/certs.go:39-56 | its names are exactly the replicas' hosts, the five service hosts spelled out, and the address's parts, in this order |
| `NatsHosts.OrdinalRouteHost` | controllers/controlplanes/nats/certs.go:45 | the host of ordinal route i is the host that the certificate lists for replica i |
| `NatsCluster.JskSettled` | controllers/controlplanes/reconcile.go:609-730 | up to the configuration write a pass changes secrets and the key only, and keeps a stored key |
| `NatsCluster.PassEnds` | controllers/controlplanes/reconcile.go:609-842 | the state that a pass leaves for each number of writes the store accepted |
| `NatsCluster.PassFields` | controllers/controlplanes/reconcile.go:609-842 | which of the stored objects a pass cut short anywhere has changed, and to what |
| `NatsRuns.RouteSurvivesStep` | controllers/controlplanes/reconcile.go:740-801 | no pass, edit or scaling between passes drops a clean foreign route |
| `NatsRuns.RoutesSurvive` | controllers/controlplanes/reconcile.go:740-801 | over any run with failing passes, a clean foreign route once present is present at the end |
| `NatsRuns.AddedRoutesSurvive` | controllers/controlplanes/reconcile.go:740-801 | so every route the Controller ever added between passes is present at the end |
| `NatsRuns.PassRoutesExact` | controllers/controlplanes/reconcile.go:740-801 | a pass that writes its configuration leaves ordinals 0..replicas-1 and then exactly the foreign routes that were there, all distinct |
| `NatsRuns.ForeignRoutesConserved` | controllers/controlplanes/reconcile.go:740-801 | the foreign routes after a run are those at its start plus those added: none lost, none invented |
| `NatsRuns.RoutesAfterRun` | controllers/controlplanes/reconcile.go:740-801 | a run from nothing that ends with a configuration write: ordinals in order, then exactly the routes ever added, all distinct |
| `NatsConfRace.ConfigMapStore.Create` | controllers/controlplanes/reconcile.go:789-793 | a create is refused iff the object exists |
| `NatsConfRace.ConfigMapStore.Update` | controllers/controlplanes/reconcile.go:794-801 | an update is refused iff the object changed since the read whose version it carries |
| `NatsConfRace.ConfigMapStore.MergeServerConf` | controllers/controlplanes/reconcile.go:740-801 | the text left when someone edits the ConfigMap at each moment around the two reads and the write, present or absent at the start; only an edit after the second read of a present one makes the write fail |
| `NatsConfRace.EditDuringPass` | controllers/controlplanes/reconcile.go:740-801 | the foreign routes after a pass with an edit inside are those before it, and the added one iff the edit landed |
| `NatsConfRace.AddedRouteStaysIff` | controllers/controlplanes/reconcile.go:740-801 | a route added during a pass stays iff it was there before, or there was a ConfigMap to edit and the edit was not between the two reads |
| `NatsConfRace.RaceRunForeign` | controllers/controlplanes/reconcile.go:740-801 | over any run with edits between and inside passes, the foreign routes at the end are those at the start and those whose edits landed |
| `NatsConfRace.AddedAnywhereStays` | controllers/controlplanes/reconcile.go:740-801 | once there is a ConfigMap, a route added at any moment of any pass but between its two reads is there at the end of the run |
| `NatsConfRace.ReprintAdds` | controllers/controlplanes/nats/config.go:207-250 | an edit as these theorems assume it exists for every clean foreign route: print the parsed routes and the new one |
| `NatsConfRace.TidyRunExists` | controllers/controlplanes/reconcile.go:740-801 | a run as the theorems assume it, with such an edit and a pass, exists for every clean foreign route |
| `NatsSecrets.SafePrefix` | controllers/controlplanes/reconcile.go:697-730 | the certificate invariant holds after every prefix of a list of safe writes |
| `NatsSecrets.TlsCreates` | controllers/controlplanes/nats/certs.go:91-134 | every creation of a pass is safe where it happens, because authorities come first |
| `NatsSecrets.CertificateChainAlways` | controllers/controlplanes/reconcile.go:697-730 | from an empty store, at every point of every run, each stored NATS server certificate has its authority stored, was signed by it, and carries it as ca.crt |
| `NatsSecrets.SiteServerFresh` | controllers/controlplanes/reconcile.go:697-730 | after the secret stage the site server's certificate is the one for the desired replica count |
| `NatsSecrets.RouteHostsCertified` | controllers/controlplanes/reconcile.go:699-801 | after a pass that wrote its configuration, the host of every ordinal route in it is named by the stored certificate |
| `NatsSecrets.RouteHostsCertifiedAfterRun` | controllers/controlplanes/reconcile.go:699-801 | the same at the end of any run from an empty store |
| `NatsSecrets.MqttFreshIff` | controllers/controlplanes/reconcile.go:697-712 | the MQTT certificate is for the desired count iff it was absent, right, or dropped together with a stale site certificate |
| `NatsSecrets.MqttStaysStale` | controllers/controlplanes/reconcile.go:701-711 | a pass that stops between the two deletions leaves the old MQTT certificate to the next pass, which keeps it |
| `NatsSecrets.JskStable` | controllers/controlplanes/nats/bootstrap.go:94-116 | no run changes a stored JetStream key |
| `NatsSecrets.ConfEmbedsKey` | controllers/controlplanes/reconcile.go:732-780 | every configuration a pass writes holds the stored key between quotes on a line of its own |
| `NatsSecrets.SameKeyEverywhere` | controllers/controlplanes/reconcile.go:732-780 | along a run, every configuration written after a key was stored embeds that key |
| `NatsSecrets.EmptyKeyBlocks` | controllers/controlplanes/reconcile.go:609-623 | from a store whose key secret holds no key, a whole run does to certificates, key, configuration and StatefulSet exactly what others do in it, and none of its passes completes |
| `NatsSecrets.StuckIffStartedStuck` | controllers/controlplanes/nats/bootstrap.go:94-116 | after any run some pass can complete iff the run did not start with such a secret: the operator never makes one |
| `NatsScaleDown.StampIffDecrease` | controllers/controlplanes/reconcile.go:811-839 | a pass writes a new restart stamp iff it lowers the stored replica count; all other annotations stay |
| `NatsScaleDown.StampIsLastDecrease` | controllers/controlplanes/reconcile.go:811-839 | over any run, the stored stamp is that of the last pass that lowered the count: none missed, none lost |
| `NatsScaleDown.FailingPassesKeepSts` | controllers/controlplanes/reconcile.go:786-839 | passes that stop early leave the StatefulSet alone |
| `NatsScaleDown.RestartNotLost` | controllers/controlplanes/reconcile.go:786-839 | after passes that shrank the configuration but failed before the StatefulSet, the next completed pass stamps iff the stored count exceeds the desired one |
| `NatsSpecTheorems.StatefulSetForSpec` | controllers/controlplanes/reconcile.go:556-559 | a completed pass stores exactly the spec's replica count, two if it is smaller, and stamps the annotations exactly when the stored count, one if left out, is larger |
| `NatsSpecTheorems.RoutesForSpec` | controllers/controlplanes/reconcile.go:740-801 | the routes written begin with the text of one route for each replica of the spec, in order, and hold no other of that form |
| `NatsSpecTheorems.HostsForSpec` | controllers/controlplanes/reconcile.go:697-730 | the stored site-server certificate is marked with the spec's count and names the host of each of its replicas |
| `NatsSpecTheorems.SpecAfterRun` | controllers/controlplanes/reconcile.go:549-842 | StatefulSet, routes and hosts for the spec's count at the end of any tidy run from nothing |
| `NatsSpecTheorems.AuthoritiesForSpec` | controllers/controlplanes/nats/certs.go:91-105 | a missing authority is self-signed and named after itself; a stored one is used |
| `NatsSpecTheorems.ServersForSpec` | controllers/controlplanes/nats/certs.go:107-131 | both new server secrets field by field: subject, the same exact names, mark, and signer, the site and the local authority respectively |
| `NatsSpecTheorems.SecretsForSpec` | controllers/controlplanes/reconcile.go:697-730 | each of the four TLS secrets stored after the secret stage: the old one, or the new one exactly when it was missing or dropped as stale |
| `NatsSpecTheorems.ConfForSpec` | controllers/controlplanes/reconcile.go:762-782 | the file written holds operator, account, domain, name and both storage limits of the spec, each on its own line |
| `NatsSpecTheorems.EndpointsForSpec` | controllers/controlplanes/reconcile.go:751-782 | and the certificate paths, the JWT directory, and the leaf address with the spec's port or 7422 |
| `NatsReconciler.Reconciler.EnsureJetStreamKeySecret` | controllers/controlplanes/nats/bootstrap.go:94-116 | creates a key only when there is none, and fails without a write when the secret is there without a key |
| `NatsReconciler.Reconciler.DropStaleCertificates` | controllers/controlplanes/reconcile.go:697-712 | issues the two deletions in order iff the site certificate's annotation differs from the desired count |
| `NatsReconciler.Reconciler.EnsureNatsSecrets` | controllers/controlplanes/nats/certs.go:61-135 | returns the missing secrets, authorities first, servers signed by the stored or new authority |
| `NatsReconciler.Reconciler.CreateTlsSecrets` | controllers/controlplanes/reconcile.go:714-730 | creates them in order, stopping at the first refused write |
| `NatsReconciler.Reconciler.WriteServerConf` | controllers/controlplanes/reconcile.go:732-801 | writes the file built from the stored key and the merge over the stored file |
| `NatsReconciler.Reconciler.CreateStatefulSet` | controllers/controlplanes/reconcile.go:811-839 | writes the desired count, with a new stamp on a decrease and the old annotations otherwise |
| `NatsReconciler.Reconciler.IssuePass` | controllers/controlplanes/reconcile.go:609-842 | the pass issues exactly the specified writes in order, or as many as the store accepts |
| `NatsReconciler.Reconciler.ReconcileNats` | controllers/controlplanes/reconcile.go:549-842 | its end state is the one that the theorems over runs are about, it succeeds iff the pass completes, success means that the StatefulSet has the spec's count, and a key secret without a key makes it fail without a change |
| `RouterSecrets.SecretStore.CreateRouterSecrets` | controllers/controlplanes/reconcile.go:847-949 | collects the missing authorities and both servers, existing ones reused |
| `RouterSecrets.SecretStore.CreateOrUpdateSecrets` | controllers/controlplanes/k8s.go:180-241 | stores a list one by one, skipping or overwriting existing ones, and succeeds iff the store accepts all the writes needed |
| `RouterSecrets.SecretStore.ReconcileRouterSecrets` | controllers/controlplanes/reconcile.go:514-524 | the secret part of the router pass ends as the theorems assume |
| `RouterSecrets.BuiltInOrder` | controllers/controlplanes/reconcile.go:881-943 | the list built: the missing authorities, then both servers, by name |
| `RouterSecrets.StoredTaken` | controllers/controlplanes/reconcile.go:881-943 | what is stored is taken as it is |
| `RouterSecrets.NewAuthorities` | controllers/controlplanes/reconcile.go:903-923 | a missing authority is self-signed and named after itself |
| `RouterSecrets.NewServers` | controllers/controlplanes/reconcile.go:925-943 | both new server secrets field by field: subject, exact names, and signer, the site and the local authority respectively |
| `RouterSecrets.StoredUpdates` | controllers/controlplanes/k8s.go:223-232 | storing with update: each name of the list ends with the last secret of that name, and nothing else changes |
| `RouterSecrets.BuiltSteps` | controllers/controlplanes/reconcile.go:903-943 | after each single addition the store is sound, because authorities come before the servers they sign |
| `RouterSecrets.RouterChainAlways` | controllers/controlplanes/reconcile.go:881-943 | from an empty store, at every point of every run, each stored router server certificate has its authority stored, was signed by it, and carries it |
| `RouterSecrets.CompletePassStoresAll` | controllers/controlplanes/reconcile.go:881-943 | a pass whose writes are all accepted leaves all four secrets |
| `RouterSecrets.StoredKeeps` | controllers/controlplanes/k8s.go:203-236 | no pass replaces a stored router secret |
| `RouterSecrets.GeneratedNamesService` | controllers/controlplanes/reconcile.go:878-881 | a generated server certificate names exactly the service's host and the parts of the address |
| `RouterSecrets.ServiceHostAlwaysNamed` | controllers/controlplanes/reconcile.go:878-943 | at every point of every run for one service, each stored router server certificate names that service's host |
| `RouterConfig.GetConfigVersion` | controllers/controlplanes/k8s.go:573-605 | the first version, or decoding error, among the router pairs, else the empty version |
| `RouterConfig.IndexByKind` | controllers/controlplanes/k8s.go:636-641 | the table maps each type to its last entry, and panics iff some entry has no string head |
| `RouterConfig.MergeConfigs` | controllers/controlplanes/k8s.go:608-669 | error, panic, unchanged and merged outcomes, each exactly as specified |
| `RouterConfig.RouterConfigMap.CreateConfigMap` | controllers/controlplanes/k8s.go:671-701 | creates or replaces the stored text by the merge; an error, a panic or a refused write leaves it as it was |
| `RouterMergeTheorems.LastOfKindMeaning` | controllers/controlplanes/k8s.go:637-641 | the stand-in found for a type is the last entry of that type, and none is found iff there is none |
| `RouterMergeTheorems.MergedVersion` | controllers/controlplanes/k8s.go:573-669 | the merged configuration carries exactly the new configuration's version |
| `RouterMergeTheorems.VersionedMergeSettles` | controllers/controlplanes/k8s.go:573-669 | with a version, merging twice is merging once, for every existing configuration |
| `RouterMergeTheorems.UnversionedGrows` | controllers/controlplanes/k8s.go:619-660 | without a version, a list of one entry that is named but not updated is changed by the second merge too |
| `RouterMergeTheorems.RepeatedMerges` | controllers/controlplanes/k8s.go:608-669 | repeated merges without a version always succeed, and are the repetition that the next theorems are about |
| `RouterMergeTheorems.GrowsForever` | controllers/controlplanes/k8s.go:637-660 | if an entry not updated has a type named but not updated, the stored list is strictly longer after each merge from the third on |
| `RouterMergeTheorems.SettlesAfterTwo` | controllers/controlplanes/k8s.go:637-660 | otherwise a third merge changes nothing any more |
| `RouterMergeTheorems.StopsChangingIff` | controllers/controlplanes/k8s.go:637-660 | repeated merges of one configuration without a version ever stop changing the list iff there is no such entry |
| `RouterMergeTheorems.FreshStopsIff` | controllers/controlplanes/k8s.go:671-701 | starting from an absent ConfigMap, they stop iff the configuration updates all it names |
| `RouterMergeTheorems.SettlesIff` | controllers/controlplanes/k8s.go:573-669 | merging again changes nothing for all existing configurations iff the new one has a version, an unreadable one, or updates all it names |
| `RouterMergeTheorems.ProcessedAt` | controllers/controlplanes/k8s.go:643-653 | the processed part position by position: each contributing new entry in order, itself or its stand-in |
| `RouterMergeTheorems.MergeConserves` | controllers/controlplanes/k8s.go:637-660 | the exact members, the exact length, and the tail of non-updatable existing entries in order; no entry comes from elsewhere |
| `RouterMergeTheorems.ForeignEntriesKept` | controllers/controlplanes/k8s.go:655-660 | over any sequence of operator configurations, entries the operator does not own are never lost |
| `RouterMergeTheorems.SameVersionStable` | controllers/controlplanes/k8s.go:619-622 | repeated passes of one versioned configuration write one result and then no other |
| `RouterUpdateTheorems.SettingsReplaced` | controllers/controlplanes/k8s.go:552-554 | after a merge across versions a router, site, address or log entry is there iff it is a new one, or the last existing one while the new list names its type in a malformed entry |
| `RouterUpdateTheorems.ProfilesReplaced` | controllers/controlplanes/k8s.go:555-559 | one of the two TLS profiles is there iff it is a new one, or the last existing profile while the new list names another profile |
| `RouterUpdateTheorems.ListenersReplaced` | controllers/controlplanes/k8s.go:560-566 | the same for the five listeners |
| `RouterUpdateTheorems.OthersKept` | controllers/controlplanes/k8s.go:643-660 | every other entry is there iff it was stored before: none added, none lost |
| `RouterUpdateTheorems.OldProfileStays` | controllers/controlplanes/k8s.go:643-660 | the exception happens: an old site-server profile stays beside its new version |
| `RouterUpdateTheorems.VersionIsToldFirst` | controllers/controlplanes/k8s.go:573-605 | the version is the pot-config text in the metadata of the first router pair that has one, an error if an earlier one is unreadable, and empty if there is none |
| `Conditions.ControlPlane.SetCondition` | apis/controlplanes/v3/controlplane_types.go:271-302 | place by place: a fresh true condition of the type set; every other one that was true is False, dated, marked with the transition, its message kept; the rest keep every field but lower the reason |
| `Conditions.WithConditionEffects` | apis/controlplanes/v3/controlplane_types.go:271-302 | the same of the list function that the theorems over calls are about |
| `Conditions.StateOfMeaning` | apis/controlplanes/v3/controlplane_types.go:316-331 | a list reads as deploying when nothing is true, else as its first true type, or as updating when that was observed at another generation |
| `Conditions.ControlPlane.GetCondition` | apis/controlplanes/v3/controlplane_types.go:316-331 | reads the state that the first true condition and the generation encode |
| `Conditions.MigratedReasonMeaning` | apis/controlplanes/v3/controlplane_types.go:276-279 | a migrated reason has no capitals, blanks or dashes and the same length, and migration changes it iff it had some |
| `Conditions.WithConditionTrue` | apis/controlplanes/v3/controlplane_types.go:271-302 | exactly one condition is true, the one just set, at its first place, stamped with the generation |
| `Conditions.WithConditionKinds` | apis/controlplanes/v3/controlplane_types.go:271-302 | no type moves or disappears, and the list grows iff the type was absent |
| `Conditions.SetThenGet` | apis/controlplanes/v3/controlplane_types.go:271-331 | the state set is read back, and as updating under any other generation |
| `Conditions.AnyCalls` | apis/controlplanes/v3/controlplane_types.go:271-331 | from any list, after any calls exactly one condition is true and the last type set is read back |
| `Conditions.CallsKeepKinds` | apis/controlplanes/v3/controlplane_types.go:271-302 | calls add exactly the types set, and keep a duplicate-free list duplicate-free |
| `Conditions.OneEntryPerKind` | apis/controlplanes/v3/controlplane_types.go:271-302 | a list started empty has one entry for each distinct type ever set |
| `FanIn.Collect` | controllers/controlplanes/states.go:73-98 | the loop over the channel folds the results in order of arrival |
| `FanIn.FoldMeaning` | controllers/controlplanes/states.go:73-104 | each flag is set iff some result set it, the delay is the largest requeuing one, every error text appears once, and the fold is final iff some result is |
| `FanIn.ArrivalOrderIrrelevant` | controllers/controlplanes/states.go:73-104 | every arrival order gives the same flags, delay and error texts |
| `ControlPlaneMachine.InvRun` | controllers/controlplanes/states.go:28-128 | versions, generations and the operator's copy stay consistent over every run |
| `ControlPlaneMachine.ChoiceByState` | controllers/controlplanes/states.go:28-48 | ready does nothing, deploying and updating start a pass without a write, and any other state is first stored as deploying, field by field, or left as it is when the write fails |
| `ControlPlaneMachine.MarkedAsReady` | controllers/controlplanes/states.go:106-116 | an accepted status write after non-final results stores the object as ready, field by field, at the same generation |
| `ControlPlaneMachine.TrailingContinueUnreachable` | controllers/controlplanes/states.go:106-127 | after three non-final results the pass always goes on to mark the object ready |
| `ControlPlaneMachine.ReadyMeansReconciled` | controllers/controlplanes/states.go:57-128 | ready at a generation means that all three sub-reconcilers came back non-final in a pass over that generation of that object, whatever was edited, deleted, failed or crashed in between |
| `ControlPlaneMachine.ReadyLeftIff` | controllers/controlplanes/states.go:106-124 | without an edit or deletion a step leaves ready iff it is the pending object update of a spec not in the operator's encoding |
| `ControlPlaneMachine.ReadyStable` | controllers/controlplanes/states.go:28-55 | ready with no such update pending is never left without a new generation or a deletion |
| `ControlPlaneMachine.StepCloser` | controllers/controlplanes/states.go:28-128 | every undisturbed operator step, whatever delays its results carry and whenever it comes, lowers the distance to rest |
| `ControlPlaneMachine.WorkBounded` | controllers/controlplanes/states.go:28-128 | over any run whatever, the undisturbed steps taken away from rest are at most the distance at the start plus twelve for each disturbance |
| `ControlPlaneMachine.FairRunRests` | controllers/controlplanes/states.go:28-128 | any run whose operator steps outnumber twelve times one more than its disturbances comes to rest on the way: ready for good, or deleted |
| `ControlPlaneMachine.UndisturbedRests` | controllers/controlplanes/states.go:28-128 | without disturbances, as many steps as the distance lead to rest, in any list of offered steps |
| `ControlPlaneMachine.NeverStuck` | controllers/controlplanes/states.go:28-128 | while the object exists or a pass is under way, some undisturbed step is possible |
| `ControlPlaneMachine.Converges` | controllers/controlplanes/states.go:28-128 | after any finite history, from any conditions list, twelve undisturbed steps among any others that do not fit make an existing object ready, and it stays so |
| `ControlPlaneReconciler.Reconciler.StatusUpdate` | controllers/controlplanes/states.go:112-116 | a status write is stored iff nothing was written since the read, and refreshes the operator's copy |
| `ControlPlaneReconciler.Reconciler.GetReconcileFunc` | controllers/controlplanes/states.go:28-48 | dispatch by state, with the migration of unknown states, takes the machine's step |
| `ControlPlaneReconciler.Reconciler.ObjectUpdate` | controllers/controlplanes/states.go:118-120 | the object update is refused iff the object changed since the status update, and raises the generation iff the spec was not in the operator's encoding |
| `ControlPlaneReconciler.Reconciler.MarkReady` | controllers/controlplanes/states.go:106-125 | the two writes take the machine's steps with others acting before each; the end is reported iff both go through, and otherwise an error |
| `ControlPlaneReconciler.Reconciler.ReconcileIn` | controllers/controlplanes/states.go:57-128 | the steps are the machine's; with a final result what is reported carries exactly what arrived: error texts, End, Requeue and the largest requeuing delay; without one, the end iff both writes go through, else an error |
| `ControlPlaneReconciler.Reconciler.Reconcile` | controllers/controlplanes/controller.go:46-70 | a call takes exactly the machine's five steps, whatever others do before each, and its report is fixed in every case: gone, ready, failed migration, some result final, both writes through or not |
| `Interleaving.AsIfAlone` | controllers/controlplanes/states.go:60-77 | at every point of every interleaving, a sub-reconciler knows and sees what it would running alone for as many calls |
| `Interleaving.UnownedKept` | controllers/controlplanes/states.go:60-77 | no interleaving changes an object that no sub-reconciler owns |
| `Interleaving.AnyOrderSameEnd` | controllers/controlplanes/states.go:60-77 | any two interleavings in which all return end in the same store and the same results |
| `Interleaving.ReturnedIff` | controllers/controlplanes/states.go:73-77 | all have returned iff each had as many turns as it has calls |
| `Interleaving.InterleavingIsSequential` | controllers/controlplanes/states.go:60-77 | that end is the one of running them one after another |
| `PassInterleaving.RouterCallsNamed` | controllers/controlplanes/reconcile.go:449-547 | every call of the router pass names a router object |
| `PassInterleaving.NatsCallsNamed` | controllers/controlplanes/reconcile.go:549-842 | every call of the NATS pass names a NATS object |
| `PassInterleaving.ControllerCallsNamed` | controllers/controlplanes/reconcile.go:130-379 | every call of the Controller pass names a Controller object |
| `PassInterleaving.RouterCallsExactly` | controllers/controlplanes/reconcile.go:449-547 | the router pass names exactly ten objects, listed |
| `PassInterleaving.NatsCallsExactly` | controllers/controlplanes/reconcile.go:549-842 | the NATS pass names exactly sixteen objects, listed |
| `PassInterleaving.ControllerCallsExactly` | controllers/controlplanes/reconcile.go:130-379 | the Controller pass names exactly ten objects, listed |
| `PassInterleaving.NamesDisjoint` | controllers/controlplanes/nats/config.go:41-53 | no object belongs to two of them, whatever the control plane is called |
| `PassInterleaving.CallsOwned` | controllers/controlplanes/reconcile.go:130-842 | each call of each sub-reconciler but the one lookup names an object of its own |
| `PassInterleaving.UnsteadyAreOperators` | controllers/controlplanes/reconcile.go:579-730 | the five unsteady names are the operator's own, and not all of the operator's own are unsteady |
| `PassInterleaving.LookupFirst` | controllers/controlplanes/k8s.go:312-333 | any other secret that a sub-reconciler writes, it writes after its own lookup of it |
| `PassInterleaving.FrozenRun` | controllers/controlplanes/k8s.go:312-333 | in every interleaving a steady pull secret keeps its presence and type, and who missed it has returned |
| `PassInterleaving.PassOrderIrrelevant` | controllers/controlplanes/states.go:60-77 | with outside answers fixed and a steady pull secret, every interleaving of every pass ends, in store and results, like router, NATS and Controller one after another |
| `PassInterleaving.CreatorsArePass` | controllers/controlplanes/reconcile.go:130-842 | the three sub-reconcilers that look up, delete and create what is missing, stopping at a missing pull secret, are such a pass |
| `PassInterleaving.CreatorsRace` | controllers/controlplanes/k8s.go:312-333 | for every control plane and every unsteady pull secret, two complete interleavings of that pass end in different stores |
| `PassInterleaving.OrderIrrelevantIff` | controllers/controlplanes/states.go:60-77 | every pass is order-independent iff its pull secret is steady |

## Left out

- NatsStorage.FileStoreFitsClaim: whole numbers only; fractional sizes and the 64-bit cap of Kubernetes quantities
  are not modelled, because the size strings promised are a number and a suffix.
- NatsRuns.AddedRoutesSurvive: edits fall between passes; what an edit inside a pass does is stated exactly by
  NatsConfRace.AddedRouteStaysIff.
- NatsRuns.RouteSurvivesStep: edits fall between passes; NatsConfRace.RaceRunForeign is the theorem with edits inside.
- NatsRuns.RoutesSurvive: as for RouteSurvivesStep.
- NatsRuns.ForeignRoutesConserved: as for RouteSurvivesStep.
- NatsRuns.RoutesAfterRun: as for RouteSurvivesStep.
- NatsConfRace.RaceRunForeign: a pass with an edit inside it has at most one, and no other write of it is refused.
- NatsCluster.JskSettled: speaks of the objects that a pass reads back. The bootstrap secrets, services, RBAC objects
  and JWT bundle are written and never read by a later step, so a stop between two of those writes leaves the modelled
  objects as at the nearest modelled write.
- NatsCluster.PassEnds: as for JskSettled.
- NatsCluster.PassFields: as for JskSettled.
- NatsReconciler.Reconciler.IssuePass: as for NatsCluster.JskSettled.
- NatsReconciler.Reconciler.ReconcileNats: as for NatsCluster.JskSettled.
- NatsReconciler.Reconciler.WriteServerConf: reads the ConfigMap once; the second read matters only for concurrent
  edits, which NatsConfRace models.
- NatsScaleDown.StampIsLastDecrease: others may scale the StatefulSet between passes, not between the read and the
  write of one pass; stamps are the given clock readings, not texts with second resolution.
- Certs.GenerateSecret: lifetimes, key usage and the IP addresses among the names are not modelled.
- PassInterleaving.PassOrderIrrelevant: each sub-reconciler makes a fixed list of calls, of which it may skip any, and
  its answers from outside (HTTP, load balancers, randomness, refused writes) are part of what it knows. Someone else
  writing the pull secret during the pass is not modelled.
- ControlPlaneReconciler.Reconciler.ReconcileIn: `reconcileDeploying` and `reconcileUpdating` are the same code for
  two states and are modelled once.
- HTTP and Keycloak calls, the ioFog client, load-balancer waiting, logging, manager start-up: their answers are
  inputs.
- The bootstrap secrets, the JWT bundle, services and RBAC objects of the NATS pass: opaque, written and never read
  back; they appear only as calls in PassInterleaving.
- Real cryptography: a certificate is its subject, names, key, issuer key and authority flag. That a
  changed address alone does not renew a certificate follows from RouterSecrets.StoredKeeps and is not stated further.
- JSON text: router configurations are parsed entries, and decoding the metadata string is a parameter.
- Go's Replacer internals: the replacement is modelled as one left-to-right scan with at most one placeholder at a place.
- Strings are code points and lower-casing is ASCII; other letters whose lower case is ASCII are not modelled.
- Uniqueness of (type, name) after a router merge: the code looks up by type only, so it does not hold;
  RouterMergeTheorems.MergeConserves states the exact members instead.
- Transient read errors, stale caches, several operator instances at once, and the deferred recover in secret
  creation.
- Labels, owner references, the microservice, port, probe and RBAC tables, `controllers/apps/controller.go`,
  generated code and manifests: no property beyond their constants.
