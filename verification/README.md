# newt-sidecar: a verified model of the blueprint reconciler

newt-sidecar watches HTTPRoutes, Services and two kinds of custom resources and keeps a Pangolin
blueprint file in step with them. It never rebuilds the blueprint: each event applies only the
difference between the keys an object had and the keys it builds now, to a store that several
processes share, and the store rewrites its file on some changes only. This project models that
machinery and proves that it amounts to rebuilding, says exactly when it does not, and says what the
file can contain at any moment, also across failed writes and crashes.

`dafny verify dfyconfig.toml` checks everything.

## How the model is built

- **Builders** (`Text`, `Blueprint`, `RouteBuilder`, `ServiceBuilder`, `PublicBuilder`,
  `PrivateBuilder`, `Handler`). From objects, annotations, secrets and configuration to blueprint
  entries and the keys they are stored under. Functions say what the result is; where the source runs
  a loop or changes a local step by step, a method does the same and is proved equal to the function.
- **Objects** (`ManagerObject`, `ControllerObject`). The Manager, the informer controller and the two
  reconcilers as classes with the source's fields. Go's map iteration order, the outcome of every file
  operation and the clock are left open.
- **Store** (`Store`). The same Manager as a value: the locked change of each call, and the steps of
  `writeState` (marshal, temporary file, rename, cleanup), each of which can fail. Whole calls are
  proved to be exactly the terminating sequences of single steps.
- **Step system** (`Events`, `World`). Two informer controllers, the `Run` of each, and two
  reconcilers interleave freely at the granularity of single Manager calls and single write steps; the
  process can crash and restart at any step. An event carries the entries its object builds, none if
  it is rejected. Each of the writers handles its events one at a time, as an informer's handler
  goroutine and a reconciler with one worker do. `HandlerRuns` proves that what a handler does is a run
  of this system, and `ObjectRuns` that the fields of the objects are those of the state to which the
  run has led, so that what is proved about runs holds of the objects.
- **What settings do** (`AnnotationEffects`). Each annotation, default and Secret key changes its own field
  of what is published, to the value it was given, and nothing else.
- **Theorems over all runs** (`InputRuns`, `Refinement`, `Serial`, `Confluence`, `SerialRuns`, `Updates`,
  `Persistence`, `WellFormed`, `OneNamespace`, `Collisions`).

The specification of the store is `Rebuild` of the live owners: the union of the entries of the latest
accepted version of every owner. `Latest` computes that version from the event history alone, every
refinement theorem also ties the two together, and `InputRuns` says what it is in terms of the objects,
deletions and reads that the sidecar was told.

### Two claims that are false, and what holds instead

- *"If no two live owners list a common key, the store agrees with the rebuilt one between events."*
  False when events interleave: a route gives a key up, a Service takes it over, and the route's late
  Remove deletes the Service's entry (`Collisions.LateRemoveDeletes`). False even when events run one
  at a time: a PublicResource that was never accepted and is reported missing removes a route's entry
  whose key equals its name (`Collisions.StrayNotFoundRemoves`). Both runs are fed by inputs, under
  every configuration. From a settled state on, the store agrees with the live owners between events
  if and only if every call that has spoiled a key for an owner was followed by a step that heals it
  (`Refinement.RefinesRebuild`, for a single key `Refinement.RefinesAtKey`): a crash, an event of the
  owner that is not a skipped reconciliation, or a Put of the owner's value.
  Whether a step spoils or heals is decided by the state before it (`Refinement.OwnerStep`). For
  events that run one at a time, agreement throughout is that every event is harmless
  (`Serial.SerialExactly`, `Serial.SerialAgreesIff`), which can be told before the event runs.
  Disjoint claims, pending calls counted among them, are one sufficient condition
  (`Refinement.DisjointIsIntact`).
- *"A Service key names one Service."* False across namespaces
  (`Blueprint.ServiceKeyAmbiguousAcrossNamespaces`), exact condition in
  `Blueprint.ServiceKeysCollideIff`; true within one namespace
  (`Blueprint.ServiceKeyInjective`), which makes refinement unconditional for a sidecar that publishes
  the Services of one namespace as tunnels (`OneNamespace.TunnelsRefineUnconditionally`).

### Where code and documentation differ

The repository's README says a PrivateResource may override its site (README.md line 255); the code
always uses the configured site, and so does the model.

## Model

| member | source | states |
|---|---|---|
| Refinement.RefinesRebuild | internal/controller/controller.go:140-197 | Refinement of the whole store, exactly. From any state in which all keys are settled (whoever lists a key has its value stored or about to be put; so it is at the start and after a crash): at a later state between events the store agrees with the live owners if and only if every Manager call that has spoiled a key for an owner since then was followed by a step that healed it for that owner. Then the public map is the one rebuilt from scratch from the latest accepted version of every owner, although only key differences are ever applied; the latest versions are those the event history determines. |
| Refinement.RefinesAtKey | internal/controller/controller.go:155-181 | The same for a single key, which may have moved from owner to owner or be listed by several: as soon as no pending call is about it, whatever else is in progress, it is stored exactly when a live owner lists it and with the value of every such owner, if and only if each call that has spoiled it was healed. |
| Refinement.SettledIffUnhurt | internal/controller/controller.go:155-197 | The exact condition for one owner, one key and any later state, calls pending or not: the owner's value is stored or about to be put if and only if no call has spoiled it without a later healing step: a crash, an event of that owner other than a skipped reconciliation, or anybody's Put of just that value. |
| Refinement.OwnerStep | internal/state/manager.go:35-100 | Exactly what a single step does to an owner under a key: afterwards its value is there or about to be put if and only if the step heals it, or it was so before and the step does not spoil it. |
| Refinement.SettledExactly | internal/controller/controller.go:155-197 | The same for all states of a stretch at once: a settled key is settled in every one of them if and only if no call in between spoils it for anybody. |
| Refinement.AgreesAtIffSettled | internal/controller/controller.go:155-197 | While no pending call is about a key, the store agrees with the live owners there if and only if the key is settled. |
| Refinement.DisjointIsIntact | internal/controller/controller.go:155-197 | One sufficient condition: nobody suffers under a key if in no state since have two owners listed it or had calls about it pending. |
| Refinement.CallKeepsSettledIff | internal/state/manager.go:35-100 | A single Manager call preserves the invariant at a key if and only if it is about another key or no other owner relies on a different value there. |
| Refinement.NoOrphansEver | internal/controller/controller.go:160-193 | In every reachable state, collisions or not, a stored key is listed by a live owner or about to be removed; between events, listed. |
| InputRuns.StoreFollowsInputs | internal/controller/controller.go:140-197 | From what the sidecar is told to what it stores: between events the public map holds just what the objects, deletions and reads of this process ask for (an accepted object its build, a rejected, deleted or missing one nothing, a usable spec its build, a failed read or unusable spec no change), if and only if every call that has spoiled a key since all keys were settled was healed. |
| InputRuns.NothingUnwantedStored | internal/controller/controller.go:140-146 | Whatever collides, between events every stored key is asked for by the last word on some owner, which is an accepted object or a usable spec; so no key stems from rejected objects only. |
| InputRuns.LastWord | internal/controller/controller.go:140-160 | What is wanted of an owner is what its last input that counts asks for, and that is never a rejected object. |
| InputRuns.LatestIsWanted | internal/controller/controller.go:77-112 | The latest version of an owner according to the events is what the inputs ask for. |
| Refinement.CustomResourceLastValid | internal/controller/publicresource/controller.go:33-60 | While nobody else lists its name or has a call about it pending, and its reconciler is idle, a PublicResource's entry is the one of its last accepted event since the last not-found, and absent if there is none, if and only if each earlier call that spoiled it was healed. |
| InputRuns.PublicResourceFollowsReads | internal/controller/publicresource/controller.go:33-60 | The same from the reads: the entry is the build of the last spec that has a domain where it is HTTP and a proxy port where it is a tunnel, since the resource was last found missing; failed reads and other specs never change it. |
| Persistence.PrivateLastValid | internal/controller/privateresource/controller.go:30-68 | Unconditionally: the private map holds under each name what the last unskipped reconciliation of any object of that name, in any namespace, asked for. |
| InputRuns.PrivateFollowsReads | internal/controller/privateresource/controller.go:30-90 | The same from the reads: the build of the last spec without the Admin role and, in cidr mode, with a valid destination, since the name was last found missing. |
| Serial.SerialExactly | internal/controller/controller.go:140-197 | The exact condition when events run one at a time, crashes included: from an agreeing state between events, every later state agrees with the live owners once the event in progress is done, if and only if every event that begins is harmless to the other owners. |
| Serial.SerialAgreesIff | internal/controller/controller.go:140-197 | Without crashes, for the states between events alone: the store agrees with the live owners in all of them if and only if every event that begins is harmless. |
| Serial.SerialRunRefinesRebuild | internal/controller/controller.go:140-197 | A sufficient condition, from the start and across crashes: events run one at a time, live owners share no key, and no PublicResource is reported missing under another owner's key; then the store between events is the rebuilt one. |
| Serial.EventKeepsAgreementIff | internal/controller/controller.go:160-197 | Run alone from an agreeing store, an event leaves an agreeing store if and only if no other owner lists a key it drops or a key it sets to another value; this can be told before the event runs. |
| Events.DeliverEffect | internal/controller/controller.go:163-175 | The calls for the key differences, in any iteration order, replace exactly the owner's old keys by its new entries. |
| Events.PlanExact | internal/controller/controller.go:155-181 | The calls of a delivery are one Put of each built entry and one Remove of each old key that is not built, and nothing else. |
| Collisions.LateRemoveDeletes | internal/controller/controller.go:163-175 | For every configuration and any two hostnames with different keys, a run fed by schema-valid inputs (two versions of a route, one Service) in which live owners never share a key and the Service's entry is nevertheless lost to the route's late Remove. |
| Collisions.StrayNotFoundRemoves | internal/controller/publicresource/controller.go:37-43 | For every configuration and hostname, a run fed by schema-valid inputs, one event at a time, in which the not-found of a never accepted PublicResource removes a route's entry. |
| Collisions.RouteDelivered | internal/resources/httproute/httproute.go:42-60 | A schema-valid route with one hostname, accepted under every configuration, becomes the event that delivers its entry; the runs above are fed with such events. |
| Collisions.ServiceDelivered | internal/resources/service/service.go:38-60 | The same for a Service published at that hostname. |
| SerialRuns.ScheduleMaps | internal/state/manager.go:35-107 | In a run without a crash nothing but the order of the Manager calls decides the two maps: they are what those calls make of the maps at its start. |
| SerialRuns.SameCallsSameMaps | internal/state/manager.go:35-107 | Two runs from the same maps in which every writer makes the same calls in the same order, different writers touching different keys, end in the same public and private maps. |
| SerialRuns.RunIsOneAfterAnother | internal/state/manager.go:35-107 | Such a run ends in the maps that making all calls of one writer, then all of the next, and so on, gives. |
| SerialRuns.SerialTwin | internal/controller/controller.go:140-197 | Serializability: for any stretch of a run without a crash, between two states with no event in progress, in which different writers touch different keys, there is a run from the same state, also without a crash, that begins an event only when the previous one is done, begins the same events in the same order with the same write flags, and ends with the same two maps, index and live owners. How writes end, and so the file and the history of writes, is not matched. |
| Confluence.RunsConverge | internal/controller/controller.go:140-197 | Two whole runs whose writers were told the same events, and in neither of which a call that has spoiled a key is left unhealed, end between events with the same public map, whatever the interleaving, iteration orders, synchronisation and write failures. (Without that condition this is false: `Collisions.LateRemoveDeletes`.) |
| Confluence.PrivateRunsConverge | internal/controller/privateresource/controller.go:30-68 | The private maps of two such runs agree as well, with no assumption about claims. |
| Updates.NoFlapping | internal/controller/controller.go:163-175 | While an object is updated, a key it lists before and after and nobody else claims is in the store at every moment, with its old or its new value. |
| Updates.SnapshotsKeepKey | internal/state/manager.go:126-155 | And it is in every document that anyone sets out to write meanwhile. |
| Updates.ResyncBegins | internal/controller/controller.go:140-161 | Processing again an unchanged object, whose keys nobody is about to touch and on which no spoiling call is left unhealed, changes no map, keeps its set of listed keys, and plans only calls without effect. |
| Updates.ResyncIsNoOp | internal/state/manager.go:39-42 | None of those calls changes the store or writes the file when it is made, whatever other writers have done to other keys in between. |
| Persistence.FileAgrees | internal/controller/controller.go:70-71 | With no call in progress and a write tried, the file is the rendering of the current two maps, unless the last try failed or a delivery that loaded synced as false changed a map since the last success. |
| Persistence.SuccessRestores | internal/state/manager.go:126-155 | Any one successful write, forced or not, restores full agreement of both maps with the file. |
| Persistence.RaceEnds | internal/controller/controller.go:61-75 | Once every controller has synchronised, the stragglers are done and one write has succeeded, the file agrees between calls until a crash whenever the last try did not fail. |
| Persistence.OutputIsWholeAndMonotone | internal/state/manager.go:126-155 | One history of the file for a whole run: each state, in the middle of writes and after failures and crashes too, has one position such that the file is its initial content or the complete rendering of the maps at that position, where the last writeState to have succeeded began; and the positions never go back. |
| Persistence.AttemptWasCurrent | internal/state/manager.go:126-132 | What a writeState sets out to write is the two maps of the state of the run in which it began. |
| Persistence.HealthOverRun | internal/state/manager.go:109-123 | Between calls, the health check is positive exactly when this process has not tried to write or its last try succeeded within the threshold, and then the file is what that try set out to write. |
| Store.HealthReflectsHistory | internal/state/manager.go:109-123 | The same for a single store state, from the recorded attempts. |
| Store.FileAgreesUnless | internal/state/manager.go:35-156 | Between calls file and maps agree unless the last attempt failed or a change was left unwritten since the last success. |
| Store.WriteOk | internal/state/manager.go:125-156 | Every step of writeState keeps the store invariant: file, error flag, time and history fit together. |
| Store.RunCallOk | internal/state/manager.go:35-156 | A whole Manager call, however its write ends, keeps that invariant; the methods of the Manager keep it as their `Valid`. |
| Store.ResultsAreReachable | internal/state/manager.go:125-156 | Every way in which a whole call can end is reached by single fallible steps. |
| Store.RunsAmountToResults | internal/state/manager.go:125-156 | Every sequence of single steps that finishes amounts to one of those ends. |
| Store.IneffectiveCall | internal/state/manager.go:39-42 | A call that finds nothing to change leaves store, file and history untouched. |
| HandlerRuns.HandlerIsRun | internal/controller/controller.go:140-197 | What a handler method does is a run of the step system: begin the event, make the calls of the plan, step through their writes. |
| HandlerRuns.FinishIsRun | internal/controller/controller.go:70-71 | The end of a controller's Run is a run of the step system: force a write, step through it, and only then set the flag. |
| ObjectRuns.StartUp | cmd/root.go:108-137 | A new Manager and one new controller for each watched kind are in the initial state of a run. |
| ObjectRuns.AddOrUpdateObject | internal/controller/controller.go:77-99 | With index, flag and Manager fields those of the state to which a run has led, delivering an object extends the run by the corresponding event and leads to the fields the objects then have. |
| ObjectRuns.DeleteObject | internal/controller/controller.go:101-112 | The same for a deletion. |
| ObjectRuns.ReconcilePublicResource | internal/controller/publicresource/controller.go:33-60 | The same for a reconciliation of a PublicResource. |
| ObjectRuns.ReconcilePrivateResource | internal/controller/privateresource/controller.go:30-68 | The same for a reconciliation of a PrivateResource. |
| ObjectRuns.FinishSynchronization | internal/controller/controller.go:61-75 | The same for the end of Run: no event begins and the flag is set. |
| OneNamespace.TunnelsRefineUnconditionally | internal/blueprint/blueprint.go:127-129 | A sidecar told only about Services of one namespace published as TCP or UDP tunnels, and about any PrivateResources, refines the rebuilt store for all event sequences and interleavings, with no assumption about collisions. |
| OneNamespace.KeysAreTheirOwners | internal/resources/service/service.go:71-118 | A key that a tunnel Service of the namespace may use determines the Service. |
| OneNamespace.TunnelKeys | internal/resources/service/service.go:71-118 | Every key such a Service builds, in either port mode, is one it may use. |
| WellFormed.EverythingStoredIsSound | internal/resources/service/service.go:71-230 | Fed schema-valid inputs, every stored public resource is HTTP with domain and server name or a tunnel with a port, has a target, and has all targets on the configured site; every private resource has a valid destination and no Admin role; the output file holds its initial content or a document of such entries; in every reachable state. |
| WellFormed.InputsGiveSoundEvents | internal/controller/publicresource/controller.go:92-115 | Every schema-valid input becomes an event with sound entries. |
| WellFormed.TunnelsAreBare | internal/blueprint/blueprint.go:537-548 | A Service without a public domain builds only TCP or UDP entries, with no auth, rules, domain, headers or maintenance. |
| WellFormed.TunnelsAreBareOverRuns | internal/blueprint/blueprint.go:500-548 | In every reachable state fed by inputs, whoever else writes, a stored entry is HTTP, or a bare tunnel, or the resource of an accepted PublicResource of that name in the event history; and so is every entry of the output file unless that still has its initial content. |
| WellFormed.TracedOverRun | internal/controller/controller.go:160-181 | In every reachable state every stored value was asked for, under that key, by an event of this process. |
| ManagerObject.Manager.AddOrUpdate | internal/state/manager.go:34-51 | The key has the value afterwards and everything else is unchanged; it returns whether the map changed; a change is followed by one attempt to write both maps when asked for, and otherwise no file is touched. The method is the store's Put call. |
| ManagerObject.Manager.AddOrUpdatePrivate | internal/state/manager.go:53-70 | The same for the private map and the store's PutPrivate call. |
| ManagerObject.Manager.Remove | internal/state/manager.go:87-100 | The key is gone afterwards and everything else is unchanged; if it was there one attempt to write follows, and otherwise no file is touched. The method is the store's Remove call. |
| ManagerObject.Manager.RemovePrivate | internal/state/manager.go:72-85 | The same for the private map and the store's RemovePrivate call. |
| ManagerObject.Manager.ForceWrite | internal/state/manager.go:102-107 | One attempt to write the current maps, which stay as they are. |
| ManagerObject.Manager.WriteHealthy | internal/state/manager.go:109-123 | Positive exactly when nothing was tried yet or the last try succeeded within the threshold, and in the second case the file holds what that try set out to write. |
| ManagerObject.Manager.WriteState | internal/state/manager.go:125-156 | The method ends in one of the four ways in which a write can end, with exactly the corresponding files, flags and history: after an error the output file is what it was, and without one it is the rendering of both maps and the temporary file is gone. |
| ControllerObject.Controller.ProcessObject | internal/controller/controller.go:140-182 | The Manager calls are those of the plan for the object. Afterwards, if the object opts out, refers to other gateways only, or is a Service that has not opted in, its old entries are gone and it has left the index; otherwise the entries of its hostnames or ports have replaced them; in both cases everything else is unchanged and the index lists exactly the new keys. |
| ControllerObject.Controller.RemoveObject | internal/controller/controller.go:188-197 | The object leaves the index, all keys it had are removed, in order, and every other key keeps its value. |
| ControllerObject.Controller.OnDeliver | internal/controller/controller.go:77-99 | Additions and updates are processed with the current value of synced. |
| ControllerObject.Controller.FinishRun | internal/controller/controller.go:70-71 | ForceWrite makes one attempt to write and changes no map, however the write ends, and synced is set. |
| ControllerObject.PublicReconcilerObject.Reconcile | internal/controller/publicresource/controller.go:33-60 | A failed read is an error and changes nothing at all; not found removes the name and nothing else; an HTTP spec without a domain and a tunnel without a proxy port change nothing; any other spec puts its build under the name and nothing else; a changed map is written once. |
| ControllerObject.PrivateReconcilerObject.Reconcile | internal/controller/privateresource/controller.go:30-68 | The same on the private map, with specs that have the Admin role or an invalid cidr destination changing nothing. |
| ControllerObject.ResyncTrace | internal/controller/controller.go:160-181 | Handling an unchanged, stored object again leaves the whole Manager as it was. |
| Blueprint.HostnameToKeyExact | internal/blueprint/blueprint.go:117-121 | The key of a hostname has a dash for each of its dots and is otherwise the hostname. |
| Blueprint.HostnameKeysCollideIff | internal/blueprint/blueprint.go:117-121 | Two hostnames share a key exactly when they have equal length and differ only by dots against dashes. |
| Blueprint.ServiceKeysCollideIff | internal/blueprint/blueprint.go:127-129 | For dash-free ports and protocols, Service keys are equal exactly when port and protocol agree and namespace and name join to the same text. |
| Blueprint.ServiceKeyInjective | internal/blueprint/blueprint.go:127-129 | With the namespace fixed, equal keys mean equal name, port and protocol, even with dashes in names. |
| Blueprint.ServiceKeyAmbiguousAcrossNamespaces | internal/blueprint/blueprint.go:127-129 | Two Services of different namespaces with the same key. |
| Blueprint.CsvRoundTrip | internal/blueprint/blueprint.go:214-226 | Splitting a joined list of trimmed, non-empty, comma-free items gives the list back. |
| Blueprint.CsvConcat | internal/blueprint/blueprint.go:214-226 | Splitting a text joined by a comma concatenates the splits. |
| Blueprint.CsvItemsAreClean | internal/blueprint/blueprint.go:214-226 | Every split item is trimmed, non-empty and comma-free, and splitting is idempotent through join. |
| Blueprint.SplitCsv | internal/blueprint/blueprint.go:214-226 | The loop computes the list items that the three lemmas above describe. |
| Blueprint.BuildDenyRules | internal/blueprint/blueprint.go:131-149 | The loop yields one deny-country rule for each list item, in order. |
| AnnotationEffects.RulesInOrder | internal/blueprint/blueprint.go:151-189 | The valid rules of a readable annotation come first, in their order, followed by one deny rule for each configured country; without a readable annotation only the latter. |
| Blueprint.BuildRules | internal/blueprint/blueprint.go:151-189 | The loops compute the rules that `AnnotationEffects.RulesInOrder` describes. |
| Blueprint.ValidRulesFilter | internal/blueprint/blueprint.go:191-210 | A rule is kept exactly when it is listed, its action is allow, deny or pass, its match cidr, ip, path or country, it has a value, and its priority is absent or within 1 and 1000. |
| Blueprint.ValidRulesConcat | internal/blueprint/blueprint.go:173-177 | The filter distributes over concatenation, so order and repetitions are kept. |
| Blueprint.RulesAreValid | internal/blueprint/blueprint.go:164-210 | Every rule that reaches the blueprint is valid, including those from configuration. |
| Blueprint.NumberAnnotationTaken | internal/blueprint/blueprint.go:292-301 | A number annotation in range is taken at its value, any other number is ignored. |
| Blueprint.BuildTargetExtras | internal/blueprint/blueprint.go:271-316 | The step-by-step changes give the target that the lemmas below describe. |
| AnnotationEffects.TargetPath | internal/blueprint/blueprint.go:274-276 | The path annotation sets the path and nothing else. |
| AnnotationEffects.TargetPathMatch | internal/blueprint/blueprint.go:277-282 | The path-match annotation sets its field when it is prefix, exact or regex, is ignored otherwise, and changes nothing else. |
| AnnotationEffects.TargetRewritePath | internal/blueprint/blueprint.go:283-285 | The same for the rewrite path. |
| AnnotationEffects.TargetRewriteMatch | internal/blueprint/blueprint.go:286-291 | The same for the rewrite match, which may also be stripPrefix. |
| AnnotationEffects.TargetPriority | internal/blueprint/blueprint.go:292-296 | A priority within 1 and 1000 is taken, any other is ignored, and nothing else changes. |
| AnnotationEffects.TargetInternalPort | internal/blueprint/blueprint.go:297-301 | The same for internal ports within 1 and 65535. |
| AnnotationEffects.TargetHealthcheck | internal/blueprint/blueprint.go:302-309 | A readable health check is taken and an unreadable one ignored. |
| AnnotationEffects.TargetEnabled | internal/blueprint/blueprint.go:310-313 | The target is enabled by true or 1 and disabled by any other text. |
| AnnotationEffects.ExtrasIgnore | internal/blueprint/blueprint.go:271-316 | Annotations that are not about the target leave it alone. |
| Blueprint.BuildAuth | internal/blueprint/blueprint.go:318-392 | The step-by-step construction gives the block that the lemmas below describe. |
| AnnotationEffects.AuthBlock | internal/blueprint/blueprint.go:325-392 | A block is published exactly when something in it is set; SSO is on exactly when its annotation is true or 1; without SSO there are no roles, users or identity provider. |
| AnnotationEffects.RolesAnnotation | internal/blueprint/blueprint.go:333-337 | With SSO on, annotating a list of roles gives exactly these roles and changes no other field. |
| AnnotationEffects.UsersAnnotation | internal/blueprint/blueprint.go:339-343 | The same for SSO users. |
| AnnotationEffects.IdpAnnotation | internal/blueprint/blueprint.go:345-350 | A positive number is taken as identity provider, any other text leaves the default, and no other field changes. |
| AnnotationEffects.WhitelistAnnotation | internal/blueprint/blueprint.go:353-357 | Annotating a whitelist gives exactly these users, with SSO on or off, and changes no other field. |
| AnnotationEffects.ListDefaultsCount | internal/blueprint/blueprint.go:333-343 | Without annotation the roles and users are those of the configured lists, each for its own field. |
| AnnotationEffects.DefaultsOverridden | internal/blueprint/blueprint.go:333-357 | With an annotation, even an empty one, the configured list has no effect. |
| AnnotationEffects.AuthIgnores | internal/blueprint/blueprint.go:325-357 | With SSO off, the annotations and defaults for roles, users and identity provider have no effect, and no other annotation ever has one. |
| AnnotationEffects.SecretPincodeKey | internal/blueprint/blueprint.go:363-367 | The pincode of the Secret is published at its value and changes no other field. |
| AnnotationEffects.SecretPasswordKey | internal/blueprint/blueprint.go:368-370 | The same for the password. |
| AnnotationEffects.SecretBasicAuthKeys | internal/blueprint/blueprint.go:371-375 | The same for basic authentication, which needs a user or a password. |
| Blueprint.BuildResource | internal/blueprint/blueprint.go:394-443 | The step-by-step construction gives the entry whose fields `AnnotationEffects.HttpFields` describes. |
| AnnotationEffects.HttpFields | internal/blueprint/blueprint.go:394-443 | Where each field of a hostname's entry comes from: name, enabled and ssl from their annotations or else the route, nothing and the configuration; server name from its annotation or the hostname; authentication, rules, headers and maintenance from the object's annotations and Secret; one target at the configured site, host, port and method. |
| AnnotationEffects.MaintenanceAnnotations | internal/blueprint/blueprint.go:245-257 | The maintenance page has each field from its own annotation, and there is none unless it is enabled. |
| RouteBuilder.ReferencesGateway | internal/resources/httproute/httproute.go:62-73 | True exactly when some parent reference names the gateway and does not contradict its namespace. |
| RouteBuilder.RouteEntriesExact | internal/resources/httproute/httproute.go:42-60 | A route's keys are the images of its hostnames, each holds the entry of the last hostname of its class, built from the route's own name and annotations, and there are as many as hostnames exactly when no two are dot-dash variants. |
| RouteBuilder.BuildEntries | internal/resources/httproute/httproute.go:42-60 | The loop computes those entries. |
| Sources.AcceptanceIff | internal/resources/handler.go:27-76 | A route is accepted unless it opts out or refers only to other gateways; a Service when it opts in or, in auto mode, does not opt out. |
| Sources.DeliveryExact | internal/controller/controller.go:140-155 | An object that opts out, a route of other gateways only, and a Service that has neither opted in nor is taken by default deliver no entries; any other route delivers the entries of its hostnames, any other Service those of its ports. |
| Sources.RouteDeliversItsHostnames | internal/controller/controller.go:140-155 | A route that is not rejected delivers exactly the keys of its hostnames. |
| ServiceBuilder.AllPortKeysExact | internal/resources/service/service.go:71-100 | All-ports mode publishes one entry for each distinct pair of port number and UDP or not, so as many as ports exactly when these pairs are distinct. |
| ServiceBuilder.AllPortEntryForwardsItsPort | internal/resources/service/service.go:79-97 | Every port has an entry under the key namespace-name-number-protocol, udp exactly for UDP ports, that forwards that number over that protocol to the Service's cluster name on the configured site and carries nothing else. |
| ServiceBuilder.BuildAllPortEntries | internal/resources/service/service.go:71-100 | The loop computes those entries. |
| ServiceBuilder.SelectionExact | internal/resources/service/service.go:130-158 | The exposed port: with a port annotation the first whose name or number is the annotated text; without one the only port there is, and among several the first named http; none otherwise. |
| ServiceBuilder.ExposureIff | internal/resources/service/service.go:130-158 | There is one exactly when some port has the annotated name or number, or without annotation when there is a single port or one is named http. |
| ServiceBuilder.NoPortNoEntry | internal/resources/service/service.go:124-158 | Without a port to expose nothing is published. |
| ServiceBuilder.TunnelExact | internal/resources/service/service.go:102-221 | Without a domain the exposed port is published as one tunnel to it, over the annotated protocol if that is tcp or udp in any case and otherwise over its own, under the annotated or the default display name. |
| ServiceBuilder.FirstPortIsAPort | internal/resources/service/service.go:130-158 | The port found is the first that matches, and none is found exactly when none matches. |
| ServiceBuilder.ResolvePort | internal/resources/service/service.go:124-221 | The step-by-step resolution gives the port that `SelectionExact`, `TunnelExact` and `HttpBuildersAgree` describe. |
| ServiceBuilder.DomainGivesOneHttpEntry | internal/resources/service/service.go:38-60 | A public domain takes precedence over all-ports mode: with one, the Service publishes an entry exactly when it has a port to expose, a single HTTP entry for the domain under the domain's key, forwarding to that port. |
| ServiceBuilder.HttpBuildersAgree | internal/resources/service/service.go:169-203 | For the same annotations, secret and configuration, the HTTP entry of a Service equals that of a route except for display name, enabled flag and target address, which is the exposed port at the Service's cluster name over http, or https or h2c where asked for. |
| ServiceBuilder.ExtrasCommuteWithAddress | internal/blueprint/blueprint.go:271-316 | Enriching a target and giving it an address commute. |
| PublicBuilder.ConvertTargets | internal/controller/publicresource/controller.go:203-222 | The slice filled by index has each target, in order. |
| PublicBuilder.TargetFields | internal/controller/publicresource/controller.go:203-222 | Each converted target has every field of its spec in its place, on the configured site. |
| PublicBuilder.BuildAuth | internal/controller/publicresource/controller.go:157-201 | The step-by-step construction gives the block that `AuthFields` describes. |
| PublicBuilder.AuthFields | internal/controller/publicresource/controller.go:157-201 | The auth block has each setting of the spec and each credential of the Secret in its own field, and there is none exactly when nothing is set. |
| PublicBuilder.BuildResource | internal/controller/publicresource/controller.go:91-115 | The construction gives the entry that `ResourceFields` describes. |
| PublicBuilder.ResourceFields | internal/controller/publicresource/controller.go:91-115 | Where each field of a PublicResource's entry comes from, with the server name defaulting to the domain. |
| PrivateBuilder.PrivateFields | internal/controller/privateresource/controller.go:48-60 | Where each field of a PrivateResource's entry comes from, on the configured site. |

## Left out

- YAML rendering: a document is the pair of maps it renders; marshalling may fail at any time.
- JSON decoding: what the three JSON annotations decode to is part of the input object.
- Nil and empty slices are one value: where only that differs, the source would store and write once more.
- Annotation names are the part after the configured prefix, which is one constant of the process.
- Kubernetes clients, informers, tombstones, object conversion and secret reading: objects arrive with their secret data; an object that cannot be converted is an event that does not happen.
- net.ParseCIDR is an arbitrary predicate on texts.
- strings.ToLower folds ASCII only; the words it is compared with cannot come from other characters.
- Converting headers, rules, maintenance and health checks of a PublicResource copies field by field; the model uses the same types on both sides.
- Cancellation: Run returning on context end, and its error when caches do not sync.
- Configuration parsing and validation, the health HTTP server, metrics, certificates, leader election and logging.
- The methods of the objects run one at a time, each from beginning to end; their interleavings are those of the step system, whose steps are single calls.
- More than one worker per reconciler, or several handlers for one informer: the source configures neither.
- ControllerObject.Controller.FinishRun: runs the two steps back to back; the race between them is in the step system.
