/**
  How far the objects are from what the resource asks for, as a number: a
  missing object counts once, a mismatching one twice, one that should not be
  there once.  Services and routes weigh five times as much as the pods whose
  environment embeds the URLs learned from them, and a pod whose URL is not
  known counts as mismatching.
 */
module Potentials {
  import opened Wrappers
  import opened Resources
  import opened Matching
  import opened Plans
  import opened Steps

  const WEIGHT := 5

  function Missing(home: map<Key, Obj>, k: Key): nat {
    if k in home then 0 else 1
  }

  function Extra(home: map<Key, Obj>, k: Key): nat {
    if k in home then 1 else 0
  }

  function Cost(home: map<Key, Obj>, want: Manifest, mode: Mode): nat {
    if want.key !in home then 1 else if Matches(mode, want, home[want.key]) then 0 else 2
  }

  /* The route that BuildRoute would give, if it would not fail. */
  function RouteWanted(p: Plan, task: RouteTask, home: map<Key, Obj>): Option<Manifest> {
    if !task.supported || !p.routes then None
    else match task.tlsMode
      case NoTls => Some(RouteFor(task, None))
      case Passthrough => Some(RouteFor(task, Some(PASSTHROUGH)))
      case Secured(termination) =>
        if task.tlsSecret == "" then Some(RouteFor(task, Some(TlsFromSecret(termination, map[]))))
        else if TlsKey(p, task) in home then
          Some(RouteFor(task, Some(TlsFromSecret(termination, SecretData(home[TlsKey(p, task)])))))
        else None
      case BadType => None
  }

  function RouteCost(p: Plan, task: RouteTask, home: map<Key, Obj>): nat {
    match RouteWanted(p, task, home)
    case None => 2
    case Some(want) => Cost(home, want, SameRoute)
  }

  /* The port a live service was given, 0 if none. */
  function PortOf(home: map<Key, Obj>, k: Key): nat {
    if k in home && home[k].Service? && home[k].ports != [] then home[k].ports[0].nodePort else 0
  }

  /* The public URL that the live objects give, "" if there is none yet. */
  function UrlNow(p: Plan, home: map<Key, Obj>, service: Key, access: Access, route: Key): string {
    match access
    case ByNodePort => if PortOf(home, service) == 0 then "" else NodeUrl(p.nodeHost, PortOf(home, service))
    case ByRoute => if route in home then RouteUrl(home[route]) else ""
    case _ => ""
  }

  function KeycloakUrlNow(p: Plan, home: map<Key, Obj>): string {
    if p.keycloakUri != "" then p.keycloakUri
    else UrlNow(p, home, p.keycloakService.key, p.keycloakAccess, p.keycloakRoute.key)
  }

  function AppUrlNow(p: Plan, home: map<Key, Obj>): string {
    UrlNow(p, home, p.appService.key, p.appAccess, p.appRoute.key)
  }

  function TrustCost(p: Plan, home: map<Key, Obj>): nat {
    Missing(home, p.trustKey) +
    if p.routes then 0
    else Missing(home, p.caKey) + Missing(home, p.appCert.key) + Missing(home, p.keycloakCert.key)
  }

  function SecretsCost(p: Plan, home: map<Key, Obj>): nat {
    Missing(home, p.dbAdmin.key) + Missing(home, p.appUser.key) + Missing(home, p.keycloakAdmin.key) +
    Missing(home, p.keycloakDb.key) + Missing(home, p.admin.key)
  }

  function PostgresCost(p: Plan, home: map<Key, Obj>): nat {
    if p.postgres then
      Cost(home, p.postgresMap, SameData) + Cost(home, p.postgresPod, SamePod) +
      Cost(home, p.postgresService, SameService)
    else Extra(home, p.postgresPod.key) + Extra(home, p.postgresService.key)
  }

  function EdgeCost(p: Plan, home: map<Key, Obj>, service: Manifest, access: Access, task: RouteTask): nat {
    WEIGHT * Cost(home, service, SameService) +
    if access.ByRoute? then WEIGHT * RouteCost(p, task, home) else 0
  }

  function KeycloakEdge(p: Plan, home: map<Key, Obj>): nat {
    if p.keycloakUri == "" then EdgeCost(p, home, p.keycloakService, p.keycloakAccess, p.keycloakRoute)
    else Extra(home, p.keycloakService.key) + if p.routes then Extra(home, p.keycloakRoute.key) else 0
  }

  function KeycloakPodCost(p: Plan, home: map<Key, Obj>): nat {
    var url := KeycloakUrlNow(p, home);
    if p.keycloakUri != "" then Extra(home, p.keycloakPodKey)
    else if url == "" || p.keycloakPod(url) == None then 2
    else Cost(home, p.keycloakPod(url).value, SamePod)
  }

  function AppEdge(p: Plan, home: map<Key, Obj>): nat {
    EdgeCost(p, home, p.appService, p.appAccess, p.appRoute)
  }

  function AppPodCost(p: Plan, home: map<Key, Obj>): nat {
    var keycloakUrl, url := KeycloakUrlNow(p, home), AppUrlNow(p, home);
    if keycloakUrl == "" || url == "" then 2 else Cost(home, p.appPod(keycloakUrl, url), SamePod)
  }

  function Potential(p: Plan, home: map<Key, Obj>): nat {
    TrustCost(p, home) + SecretsCost(p, home) + PostgresCost(p, home) +
    KeycloakEdge(p, home) + KeycloakPodCost(p, home) +
    AppEdge(p, home) + AppPodCost(p, home) + Missing(home, p.upload.key)
  }

  lemma PotentialIsBounded(p: Plan, home: map<Key, Obj>)
    ensures Potential(p, home) <= 60
  {
    hide Matches, RouteWanted, UrlNow;
  }

  // What one changed object does to the terms

  /* Nothing but the object of one key differs. */
  ghost predicate OnlyAt(h: map<Key, Obj>, h': map<Key, Obj>, k: Key) {
    forall j: Key | j != k :: (j in h <==> j in h') && (j in h ==> h'[j] == h[j])
  }

  lemma CostFrame(h: map<Key, Obj>, h': map<Key, Obj>, k: Key, want: Manifest, mode: Mode)
    requires OnlyAt(h, h', k) && want.key != k
    ensures Cost(h', want, mode) == Cost(h, want, mode)
  {
    hide Matches;
  }

  /* A route can only become cheaper when a secret appears. */
  lemma RouteCostFrame(p: Plan, h: map<Key, Obj>, h': map<Key, Obj>, k: Key, task: RouteTask)
    requires OnlyAt(h, h', k) && k != task.key
    requires k.kind == SecretKind ==> k !in h && k in h'
    ensures RouteCost(p, task, h') <= RouteCost(p, task, h)
    ensures k.kind != SecretKind ==> RouteCost(p, task, h') == RouteCost(p, task, h)
  {
    hide Matches, TlsFromSecret;
    assert TlsKey(p, task) != k ==> RouteWanted(p, task, h') == RouteWanted(p, task, h);
  }

  lemma EdgeFrame(
    p: Plan, h: map<Key, Obj>, h': map<Key, Obj>, k: Key, service: Manifest, access: Access, task: RouteTask)
    requires OnlyAt(h, h', k) && k != service.key && (access.ByRoute? ==> k != task.key)
    requires k.kind == SecretKind ==> k !in h && k in h'
    ensures EdgeCost(p, h', service, access, task) <= EdgeCost(p, h, service, access, task)
  {
    hide Cost, RouteCost;
    CostFrame(h, h', k, service, SameService);
    if access.ByRoute? { RouteCostFrame(p, h, h', k, task); }
  }

  lemma UrlFrame(p: Plan, h: map<Key, Obj>, h': map<Key, Obj>, k: Key, service: Key, access: Access, route: Key)
    requires OnlyAt(h, h', k) && (k.kind != ServiceKind || k != service) && (k.kind != RouteKind || k != route)
    requires service.kind == ServiceKind && route.kind == RouteKind
    ensures UrlNow(p, h', service, access, route) == UrlNow(p, h, service, access, route)
  {
    hide NodeUrl, RouteUrl;
  }

  lemma KeycloakUrlFrame(p: Plan, h: map<Key, Obj>, h': map<Key, Obj>, k: Key)
    requires WellFormed(p) && OnlyAt(h, h', k)
    requires p.keycloakUri == "" ==> k != p.keycloakService.key && k != p.keycloakRoute.key
    ensures KeycloakUrlNow(p, h') == KeycloakUrlNow(p, h)
  {
    hide UrlNow;
    if p.keycloakUri == "" {
      UrlFrame(p, h, h', k, p.keycloakService.key, p.keycloakAccess, p.keycloakRoute.key);
    }
  }

  lemma AppUrlFrame(p: Plan, h: map<Key, Obj>, h': map<Key, Obj>, k: Key)
    requires WellFormed(p) && OnlyAt(h, h', k) && k != p.appService.key && k != p.appRoute.key
    ensures AppUrlNow(p, h') == AppUrlNow(p, h)
  {
    hide UrlNow;
    UrlFrame(p, h, h', k, p.appService.key, p.appAccess, p.appRoute.key);
  }

  lemma KeycloakPodFrame(p: Plan, h: map<Key, Obj>, h': map<Key, Obj>, k: Key)
    requires WellFormed(p) && OnlyAt(h, h', k) && k != p.keycloakPodKey
    requires KeycloakUrlNow(p, h') == KeycloakUrlNow(p, h)
    ensures KeycloakPodCost(p, h') == KeycloakPodCost(p, h)
  {
    hide Matches, KeycloakUrlNow, SecretsFormed, MapsFormed, ServicesFormed, RoutesFormed;
  }

  lemma AppPodFrame(p: Plan, h: map<Key, Obj>, h': map<Key, Obj>, k: Key)
    requires WellFormed(p) && OnlyAt(h, h', k) && k != p.appPodKey
    requires KeycloakUrlNow(p, h') == KeycloakUrlNow(p, h) && AppUrlNow(p, h') == AppUrlNow(p, h)
    ensures AppPodCost(p, h') == AppPodCost(p, h)
  {
    hide Matches, KeycloakUrlNow, AppUrlNow, SecretsFormed, MapsFormed, ServicesFormed, RoutesFormed;
  }

  lemma TrustFrame(p: Plan, h: map<Key, Obj>, h': map<Key, Obj>, k: Key)
    requires OnlyAt(h, h', k) && (k in h ==> k in h' || (k != p.trustKey && k !in CertKeys(p)))
    ensures TrustCost(p, h') <= TrustCost(p, h)
    ensures k !in h && k in h' && (k == p.trustKey || (!p.routes && k in CertKeys(p))) ==>
      TrustCost(p, h') < TrustCost(p, h)
  {
  }

  lemma SecretsFrame(p: Plan, h: map<Key, Obj>, h': map<Key, Obj>, k: Key)
    requires OnlyAt(h, h', k) && (k in h ==> k in h' || k !in SecretKeys(p))
    ensures SecretsCost(p, h') <= SecretsCost(p, h)
    ensures k !in h && k in h' && k in SecretKeys(p) ==> SecretsCost(p, h') < SecretsCost(p, h)
  {
  }

  lemma PostgresFrame(p: Plan, h: map<Key, Obj>, h': map<Key, Obj>, k: Key)
    requires OnlyAt(h, h', k)
    requires k != p.postgresMap.key && k != p.postgresPod.key && k != p.postgresService.key
    ensures PostgresCost(p, h') == PostgresCost(p, h)
  {
    hide Matches;
  }

  lemma KeycloakEdgeFrame(p: Plan, h: map<Key, Obj>, h': map<Key, Obj>, k: Key)
    requires OnlyAt(h, h', k) && k != p.keycloakService.key && k != p.keycloakRoute.key
    requires k.kind == SecretKind ==> k !in h && k in h'
    ensures KeycloakEdge(p, h') <= KeycloakEdge(p, h)
  {
    hide EdgeCost;
    EdgeFrame(p, h, h', k, p.keycloakService, p.keycloakAccess, p.keycloakRoute);
  }

  lemma AppEdgeFrame(p: Plan, h: map<Key, Obj>, h': map<Key, Obj>, k: Key)
    requires OnlyAt(h, h', k) && k != p.appService.key && k != p.appRoute.key
    requires k.kind == SecretKind ==> k !in h && k in h'
    ensures AppEdge(p, h') <= AppEdge(p, h)
  {
    hide EdgeCost;
    EdgeFrame(p, h, h', k, p.appService, p.appAccess, p.appRoute);
  }

  /* Adding a secret, or a config map other than that of postgres, raises nothing. */
  lemma AddedMap(p: Plan, h: map<Key, Obj>, h': map<Key, Obj>, k: Key)
    requires WellFormed(p) && OnlyAt(h, h', k) && k !in h && k in h'
    requires k.kind == SecretKind || (k.kind == ConfigMapKind && k != p.postgresMap.key)
    ensures Potential(p, h') <= Potential(p, h)
    ensures k == p.trustKey || k in SecretKeys(p) || (!p.routes && k in CertKeys(p)) || k == p.upload.key
            ==> Potential(p, h') < Potential(p, h)
  {
    hide TrustCost, SecretsCost, PostgresCost, KeycloakEdge, KeycloakPodCost, AppEdge, AppPodCost;
    TrustFrame(p, h, h', k);
    SecretsFrame(p, h, h', k);
    PostgresFrame(p, h, h', k);
    KeycloakUrlFrame(p, h, h', k);
    AppUrlFrame(p, h, h', k);
    KeycloakEdgeFrame(p, h, h', k);
    KeycloakPodFrame(p, h, h', k);
    AppEdgeFrame(p, h, h', k);
    AppPodFrame(p, h, h', k);
  }

  lemma MapKind(p: Plan, k: Key)
    requires WellFormed(p)
    requires k in SecretKeys(p) || k in CertKeys(p) || k == p.trustKey || k == p.upload.key
    ensures k.kind == SecretKind || (k.kind == ConfigMapKind && k != p.postgresMap.key)
  {
    hide SecretKeys, CertKeys, PodsFormed, ServicesFormed, RoutesFormed;
  }

  /* Workloads and the config map of postgres are none of the secrets, and not the bundle. */
  lemma NotASecret(p: Plan, k: Key)
    requires WellFormed(p)
    requires k.kind == PodKind || k.kind == ServiceKind || k.kind == RouteKind || k == p.postgresMap.key
    ensures k.kind != SecretKind && k != p.trustKey && k !in CertKeys(p) && k !in SecretKeys(p)
  {
    hide SecretKeys, CertKeys, PodsFormed, ServicesFormed, RoutesFormed;
  }

  lemma KindsOfKeys(p: Plan)
    requires WellFormed(p)
    ensures p.postgresPod.key.kind == PodKind && p.keycloakPodKey.kind == PodKind && p.appPodKey.kind == PodKind
    ensures p.postgresService.key.kind == ServiceKind && p.keycloakService.key.kind == ServiceKind
    ensures p.appService.key.kind == ServiceKind
    ensures p.keycloakRoute.key.kind == RouteKind && p.appRoute.key.kind == RouteKind
    ensures p.postgresMap.key.kind == ConfigMapKind && p.upload.key.kind == ConfigMapKind
  {
    hide SecretsFormed;
  }

  lemma PostgresChange(p: Plan, h: map<Key, Obj>, h': map<Key, Obj>, k: Key)
    requires WellFormed(p) && OnlyAt(h, h', k)
    requires k == p.postgresMap.key || k == p.postgresPod.key || k == p.postgresService.key
    ensures Potential(p, h') - Potential(p, h) <= PostgresCost(p, h') - PostgresCost(p, h)
  {
    hide TrustCost, SecretsCost, PostgresCost, KeycloakEdge, KeycloakPodCost, AppEdge, AppPodCost;
    KindsOfKeys(p);
    NotASecret(p, k);
    TrustFrame(p, h, h', k);
    SecretsFrame(p, h, h', k);
    KeycloakUrlFrame(p, h, h', k);
    AppUrlFrame(p, h, h', k);
    KeycloakEdgeFrame(p, h, h', k);
    KeycloakPodFrame(p, h, h', k);
    AppEdgeFrame(p, h, h', k);
    AppPodFrame(p, h, h', k);
  }

  lemma KeycloakEdgeChange(p: Plan, h: map<Key, Obj>, h': map<Key, Obj>, k: Key)
    requires WellFormed(p) && OnlyAt(h, h', k)
    requires k == p.keycloakService.key || k == p.keycloakRoute.key
    ensures Potential(p, h') - Potential(p, h) <= KeycloakEdge(p, h') - KeycloakEdge(p, h) + 4
    ensures p.keycloakUri != "" ==>
      Potential(p, h') - Potential(p, h) <= KeycloakEdge(p, h') - KeycloakEdge(p, h)
  {
    hide TrustCost, SecretsCost, PostgresCost, KeycloakEdge, KeycloakPodCost, AppEdge, AppPodCost;
    KindsOfKeys(p);
    NotASecret(p, k);
    TrustFrame(p, h, h', k);
    SecretsFrame(p, h, h', k);
    PostgresFrame(p, h, h', k);
    AppUrlFrame(p, h, h', k);
    AppEdgeFrame(p, h, h', k);
    PodCostsAreSmall(p, h');
    if p.keycloakUri != "" {
      KeycloakUrlFrame(p, h, h', k);
      KeycloakPodFrame(p, h, h', k);
      AppPodFrame(p, h, h', k);
    }
  }

  lemma PodCostsAreSmall(p: Plan, h: map<Key, Obj>)
    ensures KeycloakPodCost(p, h) <= 2 && AppPodCost(p, h) <= 2
  {
    hide Matches, UrlNow;
  }

  lemma AppEdgeChange(p: Plan, h: map<Key, Obj>, h': map<Key, Obj>, k: Key)
    requires WellFormed(p) && OnlyAt(h, h', k)
    requires k == p.appService.key || k == p.appRoute.key
    ensures Potential(p, h') - Potential(p, h) <= AppEdge(p, h') - AppEdge(p, h) + 2
  {
    hide TrustCost, SecretsCost, PostgresCost, KeycloakEdge, KeycloakPodCost, AppEdge, AppPodCost;
    KindsOfKeys(p);
    NotASecret(p, k);
    TrustFrame(p, h, h', k);
    SecretsFrame(p, h, h', k);
    PostgresFrame(p, h, h', k);
    KeycloakUrlFrame(p, h, h', k);
    KeycloakEdgeFrame(p, h, h', k);
    KeycloakPodFrame(p, h, h', k);
    PodCostsAreSmall(p, h');
  }

  lemma KeycloakPodChange(p: Plan, h: map<Key, Obj>, h': map<Key, Obj>)
    requires WellFormed(p) && OnlyAt(h, h', p.keycloakPodKey)
    ensures Potential(p, h') - Potential(p, h) <= KeycloakPodCost(p, h') - KeycloakPodCost(p, h)
    ensures KeycloakUrlNow(p, h') == KeycloakUrlNow(p, h)
  {
    hide TrustCost, SecretsCost, PostgresCost, KeycloakEdge, KeycloakPodCost, AppEdge, AppPodCost;
    var k := p.keycloakPodKey;
    KindsOfKeys(p);
    NotASecret(p, k);
    TrustFrame(p, h, h', k);
    SecretsFrame(p, h, h', k);
    PostgresFrame(p, h, h', k);
    KeycloakUrlFrame(p, h, h', k);
    AppUrlFrame(p, h, h', k);
    KeycloakEdgeFrame(p, h, h', k);
    AppEdgeFrame(p, h, h', k);
    AppPodFrame(p, h, h', k);
  }

  lemma AppPodChange(p: Plan, h: map<Key, Obj>, h': map<Key, Obj>)
    requires WellFormed(p) && OnlyAt(h, h', p.appPodKey)
    ensures Potential(p, h') - Potential(p, h) <= AppPodCost(p, h') - AppPodCost(p, h)
    ensures KeycloakUrlNow(p, h') == KeycloakUrlNow(p, h) && AppUrlNow(p, h') == AppUrlNow(p, h)
  {
    hide TrustCost, SecretsCost, PostgresCost, KeycloakEdge, KeycloakPodCost, AppEdge, AppPodCost;
    var k := p.appPodKey;
    KindsOfKeys(p);
    NotASecret(p, k);
    TrustFrame(p, h, h', k);
    SecretsFrame(p, h, h', k);
    PostgresFrame(p, h, h', k);
    KeycloakUrlFrame(p, h, h', k);
    AppUrlFrame(p, h, h', k);
    KeycloakEdgeFrame(p, h, h', k);
    AppEdgeFrame(p, h, h', k);
    KeycloakPodFrame(p, h, h', k);
  }
}
