# The Horreum operator, verified

The Horreum operator watches one kind of resource, `Horreum`, and brings the
pods, services, routes, secrets and config maps of a namespace to what such a
resource asks for.  `Reconcile` is one long pass of Get, Create and Delete calls
that can fail, or be cut off, at every call; it is then run again against
whatever was left behind.  This project models that pass over a cluster and
proves what holds of whole runs and of whole histories of runs.

## How the model is laid out

| file | what it holds |
|---|---|
| `Trees`, `PodSpecs`, `Comparing`, `Matching` | the comparison of pod specs as a relation on trees, and what it says about the fields of two specs; the compare and check loops, and what they decide |
| `Resources`, `HorreumApi`, `Worlds` | the objects, the custom resource, and the API server with its faults |
| `Plans`, `Builders`, `PodBuilding`, `Names`, `Numerals` | the desired objects: as functions of the resource, and built step by step as in the source; that names do not clash |
| `PodEdits`, `PodWiring`, `Credentials` | which edits are noticed on live pods; the addresses, files, volumes and users that pods are given, and that their credentials agree in the live secrets |
| `Steps`, `Reconciling`, `Controller` | the reconciler: on values, and as classes and methods that change a cluster and an in-memory status; each method is proved to do what the step on values says, down to `Controller.Reconciler.Reconcile` |
| `Effects`, `Safety`, `Endings`, `Verdicts`, `Panics`, `Reports` | what every step of a run keeps, which changes are ever made, how runs end, when they panic, and what the status says of failures |
| `Making`, `NodePorts`, `GeneratedSecrets`, `RouteSecurity` | what a run creates: pods with the URLs of node ports, secrets with generated credentials, routes with the certificates of the named secret |
| `Potentials`, `Convergence`, `Histories` | the distance to the goal, and that faults cannot keep the operator busy forever |
| `Readiness`, `Fixpoint`, `ReadyObjects`, `PublicUrls`, `WorkingRuns`, `Rounds`, `Instances` | what Ready means, also in terms of the spec and for the URLs in the status, that it is a fixpoint, in how many rounds it is reached, and instances with concrete resources and answers |
| `TrustChain`, `Addressing`, `Dependencies` | the CA and its certificates, the hosts they are made for, what pods refer to |
| `Collisions`, `Interference`, `Statuses` | two resources in one namespace and in two, and the status in closed form |

A `World` holds the objects of the resource's own namespace (`home`), those of
all others (`away`), the stored resource, a count of API calls and a log of the
changes made.  An `Oracle` fixes, for every call by its number, everything the
operator cannot foresee: whether the call is answered, refused, takes effect
although an error is reported, or is never made because the operator stops
there; what other namespaces hold at that moment; what admission makes of a pod
spec; node ports, route hosts, passwords, keys, and the time.  "For all oracles"
therefore means: for every choice of failing calls and for every point at which
a run can be cut short.  A run that panics in the source ends with a verdict
that names the cause.

The distance to the goal, `Potentials.Potential`, counts a missing object once, a
mismatching one twice and one that should not be there once; services and routes
weigh five times as much as the pods that embed the URLs learned from them, and a
pod whose URL is not known yet counts as mismatching.

What is assumed of the API server: reads are current; a create or a delete is
atomic; admission may fill in or append to a pod spec, never change what is set;
a service or route gets a URL at most once in its life, and a route not before
its creation is over; `StringData` of a secret becomes `Data` at creation.
Within one run nobody else changes objects of the resource's own namespace;
between runs, and in other namespaces at any time, anything may happen that a
theorem does not exclude.  Certificates and keys are symbolic: a certificate
names the key that signed it.

Where the code and what one would expect of it differ, the model follows the code:

- `ensureSame` does not read an object again after replacing it, so a run that
  replaces a route goes on with the URL of the old one (`Steps.EnsureSame`,
  `Convergence.UrlIsStale`).
- `getLoadBalancer` tests its error the wrong way round; with a load balancer no
  run ever finishes, and one failed read panics (`Verdicts.NeverFinishes`,
  `Panics.LoadBalancerPanicsIff`).
- `tls` ignores the route it is called for and uses the application's
  (`RouteSecurity.BuiltRouteIsSpecified`); when that secret cannot be read the
  status names the other one (`Reports.MissingTlsSecretReports`).
- A comparison by derivative does not see what is no longer wanted at the end of a
  list, nor what admission has filled in (`PodSpecs.ComparePodsIsExactIff`,
  `PodSpecs.FilledInUserIsUnnoticed`): to remove the annotation with Java options
  leaves the live pod as it is, unless its route type serves TLS
  (`PodEdits.OptionsRemovalUnnoticedIff`).
- Secrets, `service-ca.crt` and the upload config map are never compared, only
  looked for; a node host that is edited later is in no certificate
  (`Addressing.CoveredIff`), and the second resource of a namespace finds the
  bundle of the first (`TrustChain.BundleIsOwnIff`,
  `TrustChain.SecondResourceIsNotTrusted`).
- A node port URL is always https, also for a service that serves http
  (`Addressing.NodePortServesIff`), and an unknown route type is taken for TLS
  without a certificate being mounted (`Addressing.AppAgreesIff`).
- The node host is put among the DNS names of a certificate even when it is an IP
  address, as in the sample resource (config/samples/_v1alpha1_horreum.yaml:6) and
  in the tutorial (doc/minikube_tutorial.md:67); no client takes such a name for
  the address (`Addressing.NodePortUrlsAreCertifiedIff`,
  `Addressing.LoopbackIsNotCertified`).
- An external URI of Keycloak that does not parse panics, although no pod of
  Keycloak is asked for then (`Panics.KeycloakPanicsIff`,
  `Instances.UnparsableUriPanics`).

## Model

| member | source | states |
|---|---|---|
| Trees.DerivesIffSameWhereSet | controllers/horreum_controller.go:442-452 | The recursive comparison of pod specs holds if and only if the live tree agrees with the wanted one at every path at which the wanted one sets something (an independent, path-based definition). |
| Trees.DerivesReflexive | controllers/horreum_controller.go:442-452 | Every spec matches itself. |
| Trees.DerivesTransitive | controllers/horreum_controller.go:442-452 | Matching composes, so a spec that matches an admitted one matches the original. |
| Trees.AdmissionChainMatches | controllers/horreum_controller.go:442-452 | A spec that went through any chain of defaulting and appending still matches what was asked for. |
| Trees.ListDriftOnlyAtEnd | controllers/horreum_controller.go:442-452 | When any elements are removed from a wanted list and any others, matching none of the wanted ones, inserted in their place, the result matches if and only if nothing was removed and nothing inserted before the end. |
| Trees.MatchingLists | controllers/horreum_controller.go:442-452 | Any live list matches if and only if it is an element by element match followed by whatever else there is. |
| Trees.MergeMatchesBoth | controllers/horreum_controller.go:442-452 | Trees that agree wherever both set something are both matched by one live tree. |
| Trees.BothMatchAgree | controllers/horreum_controller.go:442-452 | Trees that are matched by one live tree agree wherever both set something. |
| Trees.DerivesIffAgrees | controllers/horreum_controller.go:442-452 | A tree matches another one if and only if it agrees with it and sets nothing that the other leaves unset. |
| PodSpecs.KeptWhateverAdmissionIff | controllers/horreum_controller.go:442-458 | A wanted pod matches every live pod made from another spec, whatever admission did, if and only if every field it sets (images, names, variables, values, secret names and keys, ports, users, mounts, volumes and their sources, groups) has the same value there, in lists position by position; only trailing elements and fields that are not wanted make no difference. |
| PodSpecs.KeptForSomeAdmissionIff | controllers/horreum_controller.go:442-458 | It matches some such live pod if and only if all fields that both specs set have equal values, in lists as far as both go. |
| PodSpecs.ComparePodsIsExactIff | controllers/horreum_controller.go:442-458 | That a live pod matches exactly when every wanted field has the same value in the spec it was made from holds, for all such live pods, if and only if nothing is wanted that this spec leaves unset, or something wanted contradicts it. |
| PodSpecs.FilledInUserIsUnnoticed | controllers/horreum_controller.go:442-458 | The input for which it fails: a group that is wanted now, was not set before, and was filled in by admission. |
| PodEdits.AppEditsAreNoticed | controllers/app.go:10-186 | A live application pod, whatever admission made of it, that matches after an edit of the resource has the image, the database URL, the secrets, and the internal and public URLs that are wanted now. |
| PodEdits.OptionsRemovalUnnoticedIff | controllers/app.go:54-59 | To take the Java options away leaves a live application pod as it is if and only if its route type does not serve TLS. |
| Comparing.CompareService | controllers/horreum_controller.go:521-544 | The loop decides: same type and the same sequence of port numbers. |
| Comparing.CompareTexts | controllers/horreum_controller.go:591-600 | Equal sizes and a one-way loop over one map decide equality of both maps. |
| Comparing.CompareConfigMap | controllers/horreum_controller.go:584-602 | The Data maps are equal. |
| Comparing.RouteDriftUnnoticedIff | controllers/horreum_controller.go:546-564 | Of routes that match, a change of the live TLS settings, or of the live host, goes unnoticed if and only if the wanted host is left empty. |
| Comparing.CheckPod | controllers/horreum_controller.go:498-519 | The two loops with early return give the verdict of the first container in trouble, then of the Ready condition. |
| Comparing.PodProblemMeaning | controllers/horreum_controller.go:498-519 | A pod passes exactly when no container fails to pull its image or has ended and some Ready condition is true; otherwise the first such container sets severity and reason. |
| Comparing.CheckRoute | controllers/horreum_controller.go:566-582 | The nested loops give the verdict of the first Admitted condition over all ingresses. |
| Comparing.RouteProblemMeaning | controllers/horreum_controller.go:566-582 | A route passes exactly when the first Admitted condition is true, is refused exactly when it is not, and is unknown exactly when there is none. |
| Comparing.CheckSecret | controllers/horreum_controller.go:483-496 | The loop over the keys reports the first missing one. |
| Matching.SecretProblemMeaning | controllers/horreum_controller.go:483-496 | A secret passes exactly when it holds every key asked for; else the first missing key is reported, as an Error. |
| Matching.CheckSeverity | controllers/horreum_controller.go:483-582 | Checks complain as Pending or as Error and as nothing else. |
| PodBuilding.BuildAppPod | controllers/app.go:10-186 | Building by conditional appends gives the application's pod, of which the rows of Credentials and PodWiring speak. |
| Credentials.ReadyCredentialsAgree | controllers/postgres.go:68-110 | After a reconciliation that ended Ready, variables resolved by name in the live secrets: the application's datasource and migration credentials and its extra secret, and Keycloak's in its database, are what postgres is given for these accounts; the init container's for Keycloak are those of Keycloak's administrator; user variables come from the user name, password variables from the password of the secret that the resource names. |
| Credentials.LookupFinds | controllers/app.go:13-113 | In an environment without repeated names, which those of the pods are, each variable is found. |
| PodWiring.AppFindsDatabase | controllers/defaults.go:7-14 | The application is pointed, for work and for migration, to the host, port and name that are given, or else to postgres' own service and port and to the database that postgres is told to make. |
| PodWiring.KeycloakFindsDatabase | controllers/keycloak.go:58-69 | The same for Keycloak, with the database that the init script makes. |
| PodWiring.AppFindsPublicUrls | controllers/app.go:31-52 | Tokens are issued under Keycloak's public URL; the application and its init container know the application's. |
| PodWiring.AppFindsInternalUrls | controllers/horreum_controller.go:459-481 | Application, init container and upload script use one internal URL of Keycloak, and one of the application, which leads to its service. |
| PodWiring.AppFindsOptions | controllers/app.go:54-59 | The Java options reach the application, if there are any. |
| PodWiring.AppFindsCertificate | controllers/app.go:84-113 | The application is pointed to certificate and key in the directory at which their secret is mounted if and only if its route type serves TLS. |
| PodWiring.KeycloakFindsCertificate | controllers/keycloak.go:15-39 | The same for Keycloak, which is told the host of its public URL. |
| PodWiring.InitFindsBundle | controllers/app.go:114-163 | The init container finds the bundle of trusted certificates at the path it is told, which it is told exactly for the route types with a certificate of the cluster. |
| PodWiring.ImportsAreShared | controllers/app.go:60-83 | What the init container leaves among the imports the application finds at the same path. |
| PodWiring.PostgresFindsData | controllers/postgres.go:55-174 | Postgres and its init container find the claim that is given, or else a volume of the pod, in the data directory. |
| PodWiring.PostgresFindsScripts | controllers/postgres.go:76-182 | Postgres finds the scripts of the operator's config map where its image looks for them. |
| PodWiring.PostgresRunsAs | controllers/postgres.go:76-158 | Postgres runs as the given user or that of its image, its volume belongs to that user's group, and only the init container runs as root. |
| PodWiring.PostgresMountable | controllers/postgres.go:131-185 | All mounts are of volumes of the pod, and no two volumes have one name. |
| PodWiring.AppMountable | controllers/app.go:60-113 | The same for the application. |
| PodWiring.AppUsesImage | controllers/defaults.go:41-43 | Both containers of the application run the image that is given, or else the default one, as the user of the image and without a grace period. |
| PodWiring.PostgresUsesImage | controllers/defaults.go:36-39 | Postgres and its init container run the image that is given, or else the default one of the family in use. |
| PodWiring.ServicesLeadToOpenPorts | controllers/keycloak.go:116-142 | Services lead to ports that the selected pods open. |
| PodWiring.ServicesAreOfType | controllers/utils.go:158-186 | Services have the given type or else the one that goes with the cluster; the application's leads to the port without TLS exactly for routes that end TLS themselves or do without. |
| PodWiring.ServicesKeepApart | controllers/app.go:202-206 | No service of one resource selects a pod of another one. |
| Dependencies.AppNames | controllers/app.go:13-113 | The environments of the application refer to no secrets but the operator's, and to no keys in them but those that a run checks for. |
| Dependencies.KeycloakRefs | controllers/keycloak.go:14-114 | Keycloak's pod refers to nothing but what the operator provides and the certificate that it names as an exception. |
| PodBuilding.BuildPostgresPod | controllers/postgres.go:49-187 | The postgres pod, for both image families, with or without its init container and claim. |
| Controller.Reconciler.SetStatus | controllers/horreum_controller.go:428-435 | The in-memory status after a setStatus: Pending never covers an Error. |
| Controller.Reconciler.Quit | controllers/horreum_controller.go:437-440 | updateStatus before a return; whether the update succeeds does not matter. |
| Controller.Reconciler.EnsureSame | controllers/horreum_controller.go:305-347 | The method does to cluster, status and out what the step of that name does, for every answer of the server. |
| Controller.Reconciler.EnsureDeleted | controllers/horreum_controller.go:349-364 | The same for ensureDeleted. |
| Controller.Reconciler.LoadAuthority | controllers/certificates.go:25-116 | The first half of createCA: read the CA secret or make it. |
| Controller.Reconciler.CreateCA | controllers/certificates.go:25-144 | createCA with its named results. |
| Controller.Reconciler.CreateServiceCert | controllers/certificates.go:146-230 | createServiceCert, with key and signature made only after nothing was found. |
| Controller.Reconciler.TrustPart | controllers/horreum_controller.go:109-135 | The trust part of a run, with its early returns. |
| Controller.Reconciler.EnsureSecret | controllers/horreum_controller.go:142-147 | A generated secret, with the extra key of the application's (what is in it: GeneratedSecrets.CreatedSecretsAreGenerated). |
| GeneratedSecrets.CreatedSecretsAreGenerated | controllers/utils.go:40-63 | Every secret that any run creates, at whatever point it is cut short, is one of the chain of trust or holds exactly its own name as user name and a password drawn at a call of this run, and for the application's user a further secret; so does the live object. |
| GeneratedSecrets.SecretStepKeeps | controllers/horreum_controller.go:137-162 | A secret that is there already is not made, and is there afterwards. |
| Controller.Reconciler.SecretsPart | controllers/horreum_controller.go:137-162 | The five secrets, stopping at the first error. |
| Controller.Reconciler.PostgresPart | controllers/horreum_controller.go:164-184 | Postgres ensured or removed. |
| Controller.Reconciler.Tls | controllers/utils.go:80-119 | The TLS part of a route, from the application's route whatever route it is for (what is in it: RouteSecurity.BuiltRouteIsSpecified). |
| RouteSecurity.BuiltRouteIsSpecified | controllers/utils.go:80-148 | Whenever a run goes on with a route, for every oracle: host or subdomain, target, and by route type no TLS, passthrough without texts, or edge or reencrypt with exactly the certificate, key and CA certificate that the named secret holds at that moment; and it has a route exactly if routes are available. |
| RouteSecurity.CreatedRoutesAreSpecified | controllers/utils.go:80-148 | Every route that any run creates carries what the named secret holds at the very call that creates it; so does the live object. |
| RouteSecurity.ReadyRoutesServe | controllers/horreum_controller.go:546-564 | After a reconciliation that ended Ready the live routes with a given host have that host and what the secret holds now, under the specified termination; those without have the subdomain. |
| Controller.Reconciler.BuildRoute | controllers/utils.go:121-148 | A route, none without routes, or an error that ends the run. |
| Controller.Reconciler.NodePortUrl | controllers/horreum_controller.go:254-263 | The node port of the live service as a URL, or a requeue. |
| Controller.Reconciler.LoadBalancerUrl | controllers/horreum_controller.go:379-403 | As written, with the inverted test. |
| Controller.Reconciler.RoutedUrl | controllers/horreum_controller.go:271-281 | The URL of the route that was found, also when it has just been replaced (what it is: PublicUrls.FoundUrlLeads). |
| PublicUrls.FoundUrlLeads | controllers/horreum_controller.go:415-426 | Whatever fails, a run goes on only with https, the node host and the live node port in digits, or with the host of the first ingress of the route it found, https if that route has TLS and http otherwise. |
| PublicUrls.ReadyUrlsLead | controllers/horreum_controller.go:192-282 | The two URLs in the status of a reconciliation that ended Ready, by service type: those of the live node port or of the live route, and for an external Keycloak the given URI. |
| Numerals.DecimalIsNumeral | controllers/horreum_controller.go:263-263 | The digits of a port are those of its decimal notation, without leading zeros. |
| Controller.Reconciler.FindUrl | controllers/horreum_controller.go:250-282 | The public URL of a component, by the way its service type asks for. |
| Controller.Reconciler.KeycloakUrl | controllers/horreum_controller.go:191-225 | The external URI if given, else the URL found. |
| Controller.Reconciler.KeycloakPart | controllers/horreum_controller.go:226-243 | Keycloak's pod ensured, or pod, service and route removed. |
| Controller.Reconciler.AppPart | controllers/horreum_controller.go:283-288 | The application's pod with both URLs. |
| Controller.Reconciler.Finish | controllers/horreum_controller.go:290-297 | The upload config map, then the status is stored. |
| Controller.Reconciler.Prologue | controllers/horreum_controller.go:95-107 | The node host guard and the reset to Ready. |
| Controller.Reconciler.Reconcile | controllers/horreum_controller.go:81-298 | One call changes the cluster, and ends, as the specification on values says, for every oracle: all theorems about that specification hold of it. |
| PodEdits.AppPodMatchesIff | controllers/app.go:31-52 | A live application pod, whatever admission made of it, matches the wanted one if and only if it was made for the same two URLs. |
| PodEdits.KeycloakPodMatchesIff | controllers/keycloak.go:87-90 | A live Keycloak pod, whatever admission made of it, matches the wanted one if and only if it was made for the same host. |
| Names.PlanIsWellFormed | controllers/defaults.go:16-34 | For every spec, no two objects of one kind get the same name (secrets named by the user excepted), all live in the resource's namespace, services have one port, and NodePort type and node port access coincide. |
| Effects.EnsureSameSettles | controllers/horreum_controller.go:305-347 | Whatever fails: nothing happens, or the object is created, or a mismatching one is replaced or at worst removed; without a halt it matches, and silence means that nothing was changed and nothing is wrong with it. |
| Effects.EnsureDeletedClears | controllers/horreum_controller.go:349-364 | Nothing but that one object goes; without a halt it is gone and no status was set. |
| Effects.CreateIfMissingProvisions | controllers/certificates.go:118-143 | What is there is left alone; without a halt it is there; no status is set. |
| Effects.CreateStepSettles | controllers/horreum_controller.go:316-323 | A create adds exactly the wanted object, which represents its manifest, and reports Pending. |
| Reports.EnsureSameReports | controllers/horreum_controller.go:305-347 | Answer by answer: the status names the object and the first of the calls Get, Delete and Create that failed, and is stored; a created object is reported as pending, a matching one as its check says, and nothing else is said. |
| Reports.EnsureDeletedReports | controllers/horreum_controller.go:349-364 | The same for ensureDeleted, which says nothing when it succeeds. |
| Reports.MissingTlsSecretReports | controllers/utils.go:92-97 | A route whose secret cannot be read ends the run with a status that names the secret of the route itself, although it is the application's that was read. |
| Reports.LastStatusIsStored | controllers/horreum_controller.go:198-223 | A run that asks to be run again has said last that it waits for a node port or a URL, and has stored that if the call was answered; so has a finished run of the status it ended with. |
| Reports.ReadyNamesTheAdmin | controllers/horreum_controller.go:102-107 | A resource that becomes Ready names the secret with the administrator's credentials. |
| Reports.HostMissingNeverFinishes | controllers/horreum_controller.go:95-100 | Without a node host where one is needed nothing is done but to say so. |
| Making.RunMakes | controllers/horreum_controller.go:81-298 | A condition that admits what each part of a run makes, beside the objects that are there at that call, is met by every creation of every run, cut short or not. |
| Safety.ExecuteProceeds | controllers/horreum_controller.go:102-297 | Every run, at every point at which it can stop: the logged changes explain the objects and the setStatus calls explain the status. |
| Histories.RunsAreSafe | controllers/horreum_controller.go:81-298 | Frame and ownership: every change of every run is within the resource's footprint; created objects carry it as owner, were absent before and represent what was asked for; only pods, services, routes and the postgres config map are deleted; of the resource only the status changes. |
| Safety.OutsideStays | controllers/horreum_controller.go:305-364 | Legal changes leave everything outside the footprint as it is. |
| Safety.UndeletableStays | controllers/horreum_controller.go:137-162 | Legal changes never delete or rewrite a secret, `service-ca.crt` or the upload config map. |
| Histories.RunKeepsSecrets | controllers/horreum_controller.go:137-162 | No run deletes or rewrites any secret. |
| Histories.SecretsAreForever | controllers/horreum_controller.go:137-162 | Through every sequence of edits, faults and crashes a secret that exists stays byte for byte the same. |
| Convergence.ExecutePays | controllers/horreum_controller.go:137-293 | The creates and deletes of a run number at most what the potential falls by, for every fault and crash, also when the run goes on with a stale route URL. |
| Convergence.KeycloakUrlPays | controllers/horreum_controller.go:191-225 | A URL a run goes on with is the current one, or its route has just been replaced and has paid four in advance for the pods that will embed it. |
| Potentials.PotentialIsBounded | controllers/horreum_controller.go:137-293 | The potential is at most 60 in any state. |
| Histories.DriftNeverRaises | controllers/horreum_controller.go:191-289 | Pods becoming ready and URLs being given bring the objects no further from the goal. |
| Histories.CallsAreFinite | controllers/horreum_controller.go:81-298 | With a fixed resource all runs of any history together make at most as many creates and deletes as the potential at its start, so at most 60, whatever fails. |
| Endings.FinishedWentThrough | controllers/horreum_controller.go:81-298 | A run that finishes got through every one of its parts. |
| Readiness.ReadyIsSound | controllers/horreum_controller.go:102-297 | A run that finishes with status Ready leaves all secrets with the keys checked for, all wanted pods matching and ready, services matching, routes matching and admitted, disabled parts absent, and the two URLs of the live objects, not empty, in the status; nothing later in the run undoes an earlier check. |
| Fixpoint.ReadyMeansWanted | controllers/horreum_controller.go:81-298 | The same from the call of Reconcile on. |
| ReadyObjects.ReadyIsInOrder | controllers/horreum_controller.go:109-293 | After a reconciliation that ended Ready, by the spec: the secrets, config maps and the application are there, postgres if and only if it is not disabled, Keycloak if and only if it is not external, and routes where they are asked for. |
| Fixpoint.WantedRunRests | controllers/horreum_controller.go:102-297 | When everything is as wanted no run changes an object, whatever the server answers, and an answered run ends Ready and leaves the status alone. |
| Fixpoint.ReadyIsAFixpoint | controllers/horreum_controller.go:102-107 | After a run that ended Ready with its status stored, the next run creates and deletes nothing and, if answered, leaves resource and status, last update included, unchanged, although it draws new passwords. |
| WorkingRuns.RunAdvances | controllers/horreum_controller.go:191-289 | What one run without faults achieves from any state, by which URLs are known at its start. |
| WorkingRuns.FoundUrl | controllers/horreum_controller.go:191-225 | Whatever fails, a run goes on only with a URL for Keycloak that is the external one, that of a non-zero node port, or that of the route as it was found. |
| Rounds.ThreeRounds | controllers/horreum_controller.go:191-289 | From any state, if calls succeed, whoever is in place is given its URL between the runs, and the URLs that Keycloak's pod may be made from parse, three runs leave nothing to create or delete, early requeues and the stale route included. |
| Rounds.TwoRoundsAreNotEnough | controllers/horreum_controller.go:219-223 | The bound is tight: with routes for both components and none of them there yet, two rounds never do, although every call succeeds and every URL is given. |
| Rounds.OneRound | controllers/horreum_controller.go:193-205 | With node ports allocated together with their services one run is enough. |
| Instances.EmptyNamespaceIsFilled | controllers/horreum_controller.go:81-298 | An instance without routes, with a strict URL parser and concrete answers of the server: one run fills an empty namespace. |
| Instances.RoutesTakeThreeRounds | controllers/horreum_controller.go:81-298 | An instance with routes and a cluster that gives them hosts between runs: two rounds leave something to do, three do not. |
| Rounds.WantedIffZero | controllers/horreum_controller.go:137-293 | Everything is as wanted if and only if the potential is zero and pods, routes and secrets are healthy. |
| Rounds.ReadyAfterThreeRounds | controllers/horreum_controller.go:81-298 | After three rounds and once pods are ready and routes admitted, the next run ends Ready and changes no object. |
| Rounds.KeysAtZero | controllers/horreum_controller.go:137-293 | At zero potential it is settled for every managed object whether it exists. |
| Rounds.EditsAreUndone | controllers/horreum_controller.go:167-243 | The round trip: after any edits and back (Keycloak made external, postgres disabled), and any faults, three rounds bring back the same managed objects, matching the original resource, with the secrets of the beginning. |
| TrustChain.RunKeepsTrust | controllers/certificates.go:25-230 | At every point at which a run can stop: the bundle and the service certificates exist only with the CA secret, the bundle holds its certificate, the certificates are signed with its key, and serials, names and private keys fit. |
| TrustChain.TrustIsForever | controllers/certificates.go:25-230 | The same through every history of edits, faults and crashes, as long as nobody else touches the four objects. |
| TrustChain.NothingIsTrusted | controllers/certificates.go:25-230 | To start without any of the objects is a start from which this holds. |
| TrustChain.ClientsAccept | controllers/certificates.go:46-61 | With the bundle as root a client accepts both service certificates, and all serial numbers are distinct (sections 4.1.2.2 and 6.1 of RFC 5280). |
| TrustChain.CaIsNeverNil | controllers/certificates.go:149-151 | The error "CA is nil" cannot be returned when createCA succeeded. |
| TrustChain.BundleIsOwnIff | controllers/certificates.go:118-143 | After a run that got through its trust part the bundle holds the certificate of the resource's own CA if and only if, before the run, there was no bundle, or a CA secret with the certificate in it. |
| TrustChain.SecondResourceIsNotTrusted | controllers/certificates.go:140-142 | The case happens without a fault: the second resource of a namespace gets a certificate that the bundle does not accept, and no error. |
| Verdicts.NodePortIsThere | controllers/horreum_controller.go:370-377 | Whenever the node port is read, the live service is of type NodePort with exactly one port, so `Ports[0]` is in range. |
| Verdicts.NodePortUrlIsGood | controllers/horreum_controller.go:254-263 | A node port URL that a run goes on with has the live, non-zero port. |
| Verdicts.HostIsGiven | controllers/horreum_controller.go:95-100 | Where a node port is used no run gets past its start without a node host. |
| Verdicts.NodeUrlsDiffer | controllers/horreum_controller.go:263-263 | Two node port URLs with one host are equal exactly when their ports are. |
| Verdicts.PanicsAreFew | controllers/horreum_controller.go:228-241 | For every oracle: a run panics over a pod exactly when it gets there with a URL that does not parse, over a service only with a load balancer, and never over a missing port or route. |
| Panics.KeycloakPanicsIff | controllers/keycloak.go:19-22 | With a working server and an external URI, or a URL in place, the run ends in the panic over Keycloak's pod if and only if the resource is startable (node host, route type, TLS and CA secrets) and that URL does not parse. |
| Panics.ParsedNeverPanics | controllers/keycloak.go:19-22 | For every oracle: when the URLs that are there or may be given parse, no run panics over Keycloak's pod. |
| Panics.GotThere | controllers/horreum_controller.go:95-190 | For every oracle: a run that gets as far as Keycloak's URL has found the resource startable. |
| Panics.LoadBalancerPanicsIff | controllers/horreum_controller.go:379-403 | With an otherwise working server, some single refused call makes the run panic over a missing service if and only if a component is reached by load balancer. |
| Panics.WorkingNeverPanics | controllers/horreum_controller.go:405-413 | A server that works never makes a run panic over a missing service. |
| Instances.UnparsableUriPanics | controllers/horreum_controller.go:228-232 | An instance: an external URI that does not parse panics in an empty namespace with a server that never fails. |
| NodePorts.CreatedPodsUseNodeUrls | controllers/horreum_controller.go:196-205 | Every application or Keycloak pod that any run creates for a component reached by node port is made with a URL of the node host, not empty, and a port that is not zero. |
| Verdicts.NeverFinishes | controllers/horreum_controller.go:206-223 | With a load balancer, or with neither routes nor node port, no run finishes, whatever the server answers. |
| Verdicts.LoadBalancerOutcome | controllers/horreum_controller.go:379-403 | A failed read of the service panics, a successful one makes the run wait, whatever its ingress. |
| Dependencies.PodsFindTheirReferences | controllers/app.go:13-113 | Every pod any run creates finds, at the call that creates it, every secret and config map its environment and volumes name, except certificates the operator does not make. |
| Dependencies.NothingIsLoose | controllers/app.go:84-97 | The exceptions are empty exactly without routes and without passthrough. |
| Dependencies.WantedResolves | controllers/postgres.go:68-110 | In the state that Ready stands for, every secret key that a container of the three pods refers to exists. |
| Collisions.NamesAreDistinct | controllers/defaults.go:16-34 | Within one resource all default names of one kind are distinct. |
| Collisions.FootprintIsDefault | controllers/defaults.go:16-34 | The footprint of a resource that leaves all names to the operator, key by key. |
| Collisions.FootprintsMeetIff | controllers/defaults.go:16-34 | Two such resources of one namespace share only `service-ca.crt` if and only if neither name is the other plus `-db` or `-keycloak`. |
| Collisions.NeighboursAreSafe | controllers/horreum_controller.go:305-364 | A run for the one leaves all other objects of the other alone. |
| Addressing.InternalUrlsAreCertified | controllers/certificates.go:156-174 | Without routes and with the operator's own certificates, the host of each component's internal URL is covered by the certificate that the pod behind it mounts. |
| Addressing.NodePortUrlsAreCertifiedIff | controllers/certificates.go:162-174 | The host of the node port URLs is covered by these certificates if and only if it is not an IP address (section 4.2.1.6 of RFC 5280). |
| Addressing.LoopbackIsNotCertified | config/samples/_v1alpha1_horreum.yaml:6 | The node host of the sample resource, 127.0.0.1, is not covered. |
| Addressing.MountedSecrets | controllers/app.go:84-105 | The pods that the services select mount the certificate secrets that the operator made for these services. |
| Addressing.CoveredIff | controllers/certificates.go:156-174 | A certificate covers exactly the hosts that are not addresses and fit, wildcards included, an internal name or the node host at the time it was made. |
| Addressing.ServicesSelect | controllers/keycloak.go:136-139 | Each service selects the pods of its own component and of no other. |
| Addressing.AppAgreesIff | controllers/utils.go:150-176 | Scheme, service port and certificate mount agree if and only if the route type is a known one. |
| Addressing.NodePortServesIff | controllers/horreum_controller.go:263-263 | A node port URL is https; the pod behind it serves TLS on the service's port if and only if its route type is passthrough, reencrypt or empty. |
| Interference.ReconcileIsBlind | controllers/horreum_controller.go:81-364 | A reconciliation is the same when other namespaces are taken away, at every call, it leaves them as its last call found them, and it does not depend on answers to calls it has not made. |
| Interference.ChangesAreAtHome | controllers/horreum_controller.go:305-364 | Every change of every run is in the namespace of its resource. |
| Interference.AnswersDecide | controllers/horreum_controller.go:81-364 | Runs with the same answers to their own calls have the same outcome, whatever goes on in other namespaces. |
| Interference.SharedIsSplit | controllers/horreum_controller.go:81-364 | Two operators at work on one cluster in different namespaces: after every schedule of their calls the cluster holds for each what it has after its own calls, and nothing else has changed. |
| Interference.OwnObjectsAreCurrent | controllers/horreum_controller.go:81-364 | At each of its calls an operator finds in the shared cluster exactly what it left in its namespace. |
| Interference.ReconcilesCommute | controllers/horreum_controller.go:81-364 | Two schedules of the calls of two operators on one cluster, sequential or interleaved, in which each finds at every call the cluster as the turns so far have left it, end in the same cluster. |
| Interference.EverySchedule | controllers/horreum_controller.go:81-364 | For every schedule there are operators that make the same choices and find the cluster as this schedule has it. |
| Statuses.FoldIsDecided | controllers/horreum_controller.go:428-435 | The fold of setStatus calls in closed form: the last complaint of the highest severity decides. |
| Statuses.FoldClimbs | controllers/horreum_controller.go:428-435 | Within a run the status only climbs from Ready over Pending to Error. |
| Statuses.ReconciledStatus | controllers/horreum_controller.go:102-107 | The status of every reconciliation that gets past its guard: Ready as at its start without complaints, else what the last complaint of the highest severity says. |

## Left out

- `SetupWithManager`, `main.go`, flags, discovery and the test suite: wiring without behaviour of its own.
- `SetControllerReference`: its failure (an object controlled by somebody else) is not modelled; created objects carry the owner it would set.
- `generatePassword`: its alphabet and length are not modelled; a password is whatever the oracle gives.
- Conversions that cannot fail in the calls made ("is not a secret", "Cannot cast to Pods") are kept as branches of the checks only.
- Scripts, commands, pull policies, annotations and environment variables with a constant value: names, references, addresses, ports, labels and mounts are kept.
- The texts of a status are structured data that name the object; a status text other than Ready, Pending and Error counts as blank.
- Validity periods, key usages and encodings of certificates, and a CA secret whose key does not belong to its certificate.
- The ingress of a load balancer: the code that would read it is never reached with a service.
- Objects that are being terminated, finalizers and stale caches: a delete takes effect at once.
- Changes that others make in the resource's own namespace while a run is under way; between runs they are covered.
- The optimistic lock of status updates: an update is answered, refused or lost like any other call.
- Logging and printed differences.
- EditsAreUndone: compared objects match the original resource again, but node ports and route hosts may be others than before, as these are given anew.
