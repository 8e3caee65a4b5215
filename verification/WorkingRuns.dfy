/**
  How far one run gets when every call succeeds, from any state of the cluster.
 */
module WorkingRuns {
  import opened Wrappers
  import opened Resources
  import opened HorreumApi
  import opened Matching
  import opened Worlds
  import opened Plans
  import opened Steps
  import opened Effects
  import opened Builders
  import opened Reconciling
  import opened Potentials
  import opened Safety
  import opened Convergence
  import opened Histories
  import opened Readiness
  import opened Fixpoint
  import Names

  /* Every call succeeds, and keys and signatures can be made. */
  ghost predicate Works(o: Oracle) {
    forall n: nat :: o.reply(n) == Ok && o.rsa(n).Some? && o.signs(n)
  }

  predicate Served(access: Access) {
    access.ByNodePort? || access.ByRoute?
  }

  predicate AuthorityUsable(p: Plan, h: map<Key, Obj>) {
    !p.routes && p.caKey in h ==> ReadAuthority(h[p.caKey]).Some?
  }

  /* The URLs that Keycloak's pod may be made for are parsed: the external one,
     node port URLs, and that of the route as it is now. */
  ghost predicate Parses(p: Plan, h: map<Key, Obj>) {
    if p.keycloakUri != "" then p.keycloakPod(p.keycloakUri).Some?
    else
      && (p.keycloakAccess.ByNodePort? ==>
            forall port: nat | port != 0 :: p.keycloakPod(NodeUrl(p.nodeHost, port)).Some?)
      && (p.keycloakAccess.ByRoute? && p.keycloakRoute.key in h && RouteUrl(h[p.keycloakRoute.key]) != "" ==>
            p.keycloakPod(RouteUrl(h[p.keycloakRoute.key])).Some?)
  }

  /* A route that can be built when it is its turn: its type is supported, and its
     TLS secret is there or is one of those the run makes. */
  predicate Obtainable(p: Plan, h: map<Key, Obj>, task: RouteTask) {
    || Buildable(p, h, task)
    || (task.supported && p.routes && task.tlsMode.Secured? && TlsKey(p, task) in SecretKeys(p))
  }

  /* The resource can be satisfied as far as Keycloak's URL: a node host where one
     is needed, a route that can be built, and a CA secret, if there is one, that
     can be read. */
  predicate Startable(p: Plan, h: map<Key, Obj>) {
    !p.hostMissing && Obtainable(p, h, p.keycloakRoute) && AuthorityUsable(p, h)
  }

  /* In addition, no load balancer, and a route for the application. */
  predicate Settleable(p: Plan, h: map<Key, Obj>) {
    && Startable(p, h)
    && Served(p.appAccess) && (p.keycloakUri == "" ==> Served(p.keycloakAccess))
    && Obtainable(p, h, p.appRoute)
  }

  /* The resource can be satisfied. */
  ghost predicate Viable(p: Plan, h: map<Key, Obj>) {
    Settleable(p, h) && Parses(p, h)
  }

  // What a part of a run leaves alone

  /* Nothing but the objects of some keys differs. */
  ghost predicate Touched(h: map<Key, Obj>, h': map<Key, Obj>, ks: set<Key>) {
    forall k: Key | k !in ks :: (k in h <==> k in h') && (k in h ==> h'[k] == h[k])
  }

  lemma TouchedOn(a: map<Key, Obj>, b: map<Key, Obj>, c: map<Key, Obj>, ks: set<Key>, ls: set<Key>)
    requires Touched(a, b, ks) && Touched(b, c, ls)
    ensures Touched(a, c, ks + ls)
  {
  }

  lemma CostTouched(h: map<Key, Obj>, h': map<Key, Obj>, ks: set<Key>, want: Manifest, mode: Mode)
    requires Touched(h, h', ks) && want.key !in ks
    ensures Cost(h', want, mode) == Cost(h, want, mode)
  {
    hide Matches;
  }

  /* A route that can be built can be built later in the run, and is the same. */
  lemma BuildableStays(p: Plan, s: Run, t: Run, task: RouteTask)
    requires WellFormed(p) && Proceeds(p, s, t) && Buildable(p, s.w.home, task)
    ensures Buildable(p, t.w.home, task)
    ensures p.routes ==> RouteWanted(p, task, t.w.home) == RouteWanted(p, task, s.w.home)
  {
    hide Explained, Summed, RouteFor, TlsFromSecret, Matches;
    MapKinds(p);
    if TlsKey(p, task) in s.w.home {
      UndeletableStays(p, s.w.home, t.w.log[|s.w.log|..], t.w.home, TlsKey(p, task));
    }
  }

  lemma EdgeTouched(
    p: Plan, s: Run, t: Run, ks: set<Key>, service: Manifest, access: Access, task: RouteTask)
    requires WellFormed(p) && Proceeds(p, s, t) && Touched(s.w.home, t.w.home, ks)
    requires service.key !in ks && task.key !in ks
    requires access.ByRoute? ==> p.routes && Buildable(p, s.w.home, task)
    ensures EdgeCost(p, t.w.home, service, access, task) == EdgeCost(p, s.w.home, service, access, task)
    ensures UrlNow(p, t.w.home, service.key, access, task.key) == UrlNow(p, s.w.home, service.key, access, task.key)
  {
    hide Proceeds, RouteWanted, RouteUrl, NodeUrl, Matches, WellFormed;
    if access.ByRoute? { BuildableStays(p, s, t, task); }
    CostTouched(s.w.home, t.w.home, ks, service, SameService);
    RouteWantedKey(p, s.w.home, task);
    var want := RouteWanted(p, task, s.w.home);
    if access.ByRoute? && want.Some? { CostTouched(s.w.home, t.w.home, ks, want.value, SameRoute); }
  }

  lemma RouteWantedKey(p: Plan, h: map<Key, Obj>, task: RouteTask)
    ensures IsRouteOf(task, RouteWanted(p, task, h))
  {
    hide TlsFromSecret;
  }

  // Parts of a run that works

  lemma EnsureSameWorks(o: Oracle, p: Plan, s: Run, want: Manifest, mode: Mode)
    requires Works(o) && s.halt == None && want.key.ns == s.w.ns
    ensures EnsureSame(o, p, s, want, mode).0.halt == None
  {
    hide Matches, CheckProblem, Live;
  }

  lemma EnsureDeletedWorks(o: Oracle, s: Run, k: Key)
    requires Works(o) && s.halt == None && k.ns == s.w.ns
    ensures EnsureDeleted(o, s, k).halt == None
  {
  }

  lemma CreateIfMissingWorks(o: Oracle, p: Plan, s: Run, k: Key, made: Option<Manifest>)
    requires Works(o) && s.halt == None && k.ns == s.w.ns && made.Some? && made.value.key == k
    ensures CreateIfMissing(o, p, s, k, made).halt == None
  {
    hide Live;
  }

  lemma LoadAuthorityWorks(o: Oracle, p: Plan, s: Run)
    requires Works(o) && s.halt == None && p.caKey.ns == s.w.ns
    requires p.caKey in s.w.home ==> ReadAuthority(s.w.home[p.caKey]).Some?
    ensures LoadAuthority(o, p, s).0.halt == None
  {
    hide Live, ReadAuthority, CaCertificate;
  }

  lemma CertSecretWorks(o: Oracle, n: nat, p: Plan, ca: Authority, task: CertTask)
    requires Works(o)
    ensures CertSecret(o, n, p, ca, task).Some? && CertSecret(o, n, p, ca, task).value.key == task.key
  {
    hide ServiceCertificate;
  }

  lemma TrustPartWorks(o: Oracle, p: Plan, s: Run)
    requires WellFormed(p) && InPlace(p, s) && Works(o) && s.halt == None && AuthorityUsable(p, s.w.home)
    ensures TrustPart(o, p, s).halt == None && AuthorityUsable(p, TrustPart(o, p, s).w.home)
  {
    hide WellFormed, LoadAuthority, CreateIfMissing, Provisioned, Proceeds, CertSecret, EnsureSame, Footprint, Works;
    hide ReadAuthority;
    BundleHome(p);
    if p.routes {
      EnsureSameWorks(o, p, s, TrustManifest(p), Exists);
    } else {
      CertKinds(p);
      var s0, authority, s1, s2, s3 := TrustSteps(o, p, s);
      LoadAuthorityWorks(o, p, s);
      CreateIfMissingWorks(o, p, s0, p.trustKey, Some(TrustBundle(p, authority.value)));
      CertSecretWorks(o, s1.w.clock + 1, p, authority.value, p.appCert);
      CreateIfMissingWorks(o, p, s1, p.appCert.key, CertSecret(o, s1.w.clock + 1, p, authority.value, p.appCert));
      CertSecretWorks(o, s2.w.clock + 1, p, authority.value, p.keycloakCert);
      CreateIfMissingWorks(
        o, p, s2, p.keycloakCert.key, CertSecret(o, s2.w.clock + 1, p, authority.value, p.keycloakCert));
      CertificatesReadable(o, p, s);
    }
  }

  lemma BundleHome(p: Plan)
    requires WellFormed(p)
    ensures p.trustKey.ns == p.owner.ns
  {
  }

  lemma SecretStepWorks(o: Oracle, p: Plan, s: Run, task: SecretTask)
    requires WellFormed(p) && InPlace(p, s) && Works(o) && s.halt == None && task.key in SecretKeys(p)
    ensures var t := SecretStep(o, p, s, task);
      t.halt == None && InPlace(p, t) && Touched(s.w.home, t.w.home, {task.key})
  {
    hide EnsureSame, Settled, WellFormed, Footprint, Works, Proceeds, SecretKeys, InPlace;
    FootprintHas(p);
    FootprintIsLocal(p, task.key);
    var want := SecretManifest(o, s.w.clock, task);
    PlainProceeds(o, p, s, want, HasKeys(NeededKeys(task)));
    SettledPrice(s, SecretStep(o, p, s, task), want, HasKeys(NeededKeys(task)));
    EnsureSameWorks(o, p, s, want, HasKeys(NeededKeys(task))) by { Here(p, s); }
  }

  lemma Here(p: Plan, s: Run)
    requires InPlace(p, s)
    ensures s.w.ns == p.owner.ns
  {
  }

  lemma SecretsPartWorks(o: Oracle, p: Plan, s: Run)
    requires WellFormed(p) && InPlace(p, s) && Works(o) && s.halt == None
    ensures var t := SecretsPart(o, p, s);
      t.halt == None && Touched(s.w.home, t.w.home, SecretKeys(p))
  {
    hide SecretStep, WellFormed, Works, InPlace;
    var s1 := SecretStep(o, p, s, p.dbAdmin);
    var s2 := SecretStep(o, p, s1, p.appUser);
    var s3 := SecretStep(o, p, s2, p.keycloakAdmin);
    var s4 := SecretStep(o, p, s3, p.keycloakDb);
    SecretStepWorks(o, p, s, p.dbAdmin);
    SecretStepWorks(o, p, s1, p.appUser);
    SecretStepWorks(o, p, s2, p.keycloakAdmin);
    SecretStepWorks(o, p, s3, p.keycloakDb);
    SecretStepWorks(o, p, s4, p.admin);
  }

  lemma TrustPartTouches(o: Oracle, p: Plan, s: Run)
    requires WellFormed(p) && InPlace(p, s) && s.halt == None
    ensures Touched(s.w.home, TrustPart(o, p, s).w.home, CertKeys(p) + {p.trustKey})
  {
    hide WellFormed, LoadAuthority, CreateIfMissing, Provisioned, Proceeds, CertSecret, EnsureSame, Footprint, Settled;
    if p.routes {
      FootprintHas(p);
      PlainProceeds(o, p, s, TrustManifest(p), Exists);
      SettledPrice(s, TrustPart(o, p, s), TrustManifest(p), Exists);
    } else {
      var s0, authority, s1, s2, s3 := TrustSteps(o, p, s);
      AuthorityTouches(o, p, s);
      if authority.Some? {
        ProvisionedPrice(s0, s1, p.trustKey, Some(TrustBundle(p, authority.value)));
        CertTouches(o, s1.w.clock + 1, p, s1, s2, authority.value, p.appCert);
        CertTouches(o, s2.w.clock + 1, p, s2, s3, authority.value, p.keycloakCert);
      }
    }
  }

  lemma AuthorityTouches(o: Oracle, p: Plan, s: Run)
    requires WellFormed(p) && InPlace(p, s)
    ensures Touched(s.w.home, LoadAuthority(o, p, s).0.w.home, {p.caKey})
  {
    hide LoadAuthority, WellFormed, NewAuthority;
    LoadAuthorityShape(o, p, s);
  }

  lemma CertTouches(o: Oracle, n: nat, p: Plan, s: Run, t: Run, ca: Authority, task: CertTask)
    requires Provisioned(s, t, task.key, CertSecret(o, n, p, ca, task))
    ensures Touched(s.w.home, t.w.home, {task.key})
  {
    hide Provisioned, ServiceCertificate;
    ProvisionedPrice(s, t, task.key, CertSecret(o, n, p, ca, task));
  }

  /* The object is as wanted, and nothing else has changed. */
  lemma ComparedWorks(o: Oracle, p: Plan, s: Run, want: Manifest, mode: Mode)
    requires WellFormed(p) && InPlace(p, s) && Works(o) && s.halt == None && AllThere(p, s.w.home)
    requires want.key in Footprint(p) && !want.PodM? && Fits(mode, want)
    requires mode.Exists? || mode.HasKeys? || Deletable(p, want.key)
    ensures var (t, out) := EnsureSame(o, p, s, want, mode);
      && t.halt == None && InPlace(p, t) && AllThere(p, t.w.home) && Proceeds(p, s, t) && Settled(s, t, want, mode)
      && OnlyAt(s.w.home, t.w.home, want.key) && Cost(t.w.home, want, mode) == 0
      && (Cost(s.w.home, want, mode) == 0 ==> Kept(s, t))
  {
    hide EnsureSame, Settled, WellFormed, Footprint, Works, Proceeds, AllThere, Fits, Deletable, Matches;
    ComparedProceeds(o, p, s, want, mode);
    FootprintIsLocal(p, want.key);
    EnsureSameWorks(o, p, s, want, mode);
    SettledPrice(s, EnsureSame(o, p, s, want, mode).0, want, mode);
  }

  lemma PodWorks(o: Oracle, p: Plan, s: Run, want: Manifest)
    requires WellFormed(p) && InPlace(p, s) && Works(o) && s.halt == None && AllThere(p, s.w.home)
    requires IsPodOf(p, want) && (want.key == p.postgresPod.key ==> p.postgresMap.key in s.w.home)
    ensures var (t, out) := EnsureSame(o, p, s, want, SamePod);
      && t.halt == None && InPlace(p, t) && AllThere(p, t.w.home)
      && OnlyAt(s.w.home, t.w.home, want.key) && Cost(t.w.home, want, SamePod) == 0
  {
    hide EnsureSame, Settled, WellFormed, Footprint, Works, Proceeds, AllThere, Matches, IsPodOf;
    PodProceeds(o, p, s, want);
    PodIsOwn(p, want);
    FootprintIsLocal(p, want.key);
    EnsureSameWorks(o, p, s, want, SamePod);
    SettledPrice(s, EnsureSame(o, p, s, want, SamePod).0, want, SamePod);
  }

  lemma GoneWorks(o: Oracle, p: Plan, s: Run, k: Key)
    requires WellFormed(p) && InPlace(p, s) && Works(o) && s.halt == None && AllThere(p, s.w.home)
    requires k in Footprint(p) && Deletable(p, k)
    ensures var t := EnsureDeleted(o, s, k);
      t.halt == None && InPlace(p, t) && AllThere(p, t.w.home) && t.w.home == s.w.home - {k}
  {
    hide EnsureDeleted, Cleared, WellFormed, Footprint, Works, Proceeds, AllThere, Deletable;
    DeletedProceeds(o, p, s, k);
    FootprintIsLocal(p, k);
    EnsureDeletedWorks(o, s, k);
    ClearedHome(s, EnsureDeleted(o, s, k), k);
  }

  lemma PostgresMade(o: Oracle, p: Plan, s: Run)
    requires WellFormed(p) && InPlace(p, s) && Works(o) && s.halt == None && AllThere(p, s.w.home)
    ensures var s1 := EnsureSame(o, p, s, p.postgresMap, SameData).0;
      var s2 := EnsureSame(o, p, s1, p.postgresPod, SamePod).0;
      var t := EnsureSame(o, p, s2, p.postgresService, SameService).0;
      && t.halt == None
      && Cost(t.w.home, p.postgresMap, SameData) == 0 && Cost(t.w.home, p.postgresPod, SamePod) == 0
      && Cost(t.w.home, p.postgresService, SameService) == 0
      && Touched(s.w.home, t.w.home, {p.postgresMap.key, p.postgresPod.key, p.postgresService.key})
  {
    hide EnsureSame, Footprint, Works, AllThere, InPlace, Cost, Settled, Proceeds, SecretsFormed, RoutesFormed;
    FootprintHas(p);
    var s1 := EnsureSame(o, p, s, p.postgresMap, SameData).0;
    var s2 := EnsureSame(o, p, s1, p.postgresPod, SamePod).0;
    var s3 := EnsureSame(o, p, s2, p.postgresService, SameService).0;
    ComparedWorks(o, p, s, p.postgresMap, SameData);
    ThereWhenSettled(s, s1, p.postgresMap, SameData);
    PodWorks(o, p, s1, p.postgresPod);
    ComparedWorks(o, p, s2, p.postgresService, SameService);
    CostFrame(s1.w.home, s2.w.home, p.postgresPod.key, p.postgresMap, SameData);
    CostFrame(s2.w.home, s3.w.home, p.postgresService.key, p.postgresMap, SameData);
    CostFrame(s2.w.home, s3.w.home, p.postgresService.key, p.postgresPod, SamePod);
  }

  lemma PostgresPartWorks(o: Oracle, p: Plan, s: Run)
    requires WellFormed(p) && InPlace(p, s) && Works(o) && s.halt == None && AllThere(p, s.w.home)
    ensures var t := PostgresPart(o, p, s);
      && t.halt == None && PostgresCost(p, t.w.home) == 0
      && Touched(s.w.home, t.w.home, {p.postgresMap.key, p.postgresPod.key, p.postgresService.key})
  {
    hide EnsureSame, EnsureDeleted, Footprint, Works, AllThere, InPlace, Cost, SecretsFormed, MapsFormed, RoutesFormed;
    if p.postgres {
      PostgresMade(o, p, s);
    } else {
      FootprintHas(p);
      GoneWorks(o, p, s, p.postgresPod.key);
      GoneWorks(o, p, EnsureDeleted(o, s, p.postgresPod.key), p.postgresService.key);
    }
  }

  // The URL of a component

  /* The service, and the route if it is by route, are in place and have their URL. */
  predicate Known(p: Plan, h: map<Key, Obj>, service: Manifest, access: Access, task: RouteTask) {
    EdgeCost(p, h, service, access, task) == 0 && UrlNow(p, h, service.key, access, task.key) != ""
  }

  /* Node ports are allocated with the service, now and in the past. */
  ghost predicate Prompt(o: Oracle, h: map<Key, Obj>, service: Manifest, access: Access) {
    && access.ByNodePort? && service.ServiceM? && service.serviceType == "NodePort" && |service.ports| == 1
    && (forall n: nat :: o.nodePort(n) != 0)
    && (Cost(h, service, SameService) == 0 ==> PortOf(h, service.key) != 0)
  }

  ghost predicate AtOnce(o: Oracle, p: Plan, h: map<Key, Obj>, service: Manifest, access: Access, task: RouteTask) {
    Known(p, h, service, access, task) || Prompt(o, h, service, access)
  }

  lemma EnsureSamePort(o: Oracle, p: Plan, s: Run, service: Manifest)
    requires Works(o) && s.halt == None && service.key.ns == s.w.ns && Prompt(o, s.w.home, service, ByNodePort)
    ensures PortOf(EnsureSame(o, p, s, service, SameService).0.w.home, service.key) != 0
  {
    hide Represents;
  }

  lemma NodePortWorks(o: Oracle, p: Plan, s: Run, service: Manifest)
    requires Works(o) && InPlace(p, s) && s.halt == None && service.key.ns == p.owner.ns
    ensures var (t, url) := NodePortUrl(o, p, s, service);
      PortOf(s.w.home, service.key) != 0 ==> t.halt == None && url == NodeUrl(p.nodeHost, PortOf(s.w.home, service.key))
  {
    hide NodeUrl;
  }

  /* The service and the route are in place afterwards, and the URL is found if
     it is there to be found. */
  ghost predicate EdgeDone(
    o: Oracle, p: Plan, s: Run, t: Run, url: string, service: Manifest, access: Access, task: RouteTask)
  {
    && EdgeCost(p, t.w.home, service, access, task) == 0
    && Touched(s.w.home, t.w.home, {service.key, task.key})
    && (AtOnce(o, p, s.w.home, service, access, task) ==>
          t.halt == None && url == UrlNow(p, t.w.home, service.key, access, task.key) && url != "")
    && (Known(p, s.w.home, service, access, task) ==> t.w.home == s.w.home)
  }

  lemma ByPortWorks(o: Oracle, p: Plan, s: Run, service: Manifest, task: RouteTask)
    requires WellFormed(p) && InPlace(p, s) && Works(o) && s.halt == None && AllThere(p, s.w.home)
    requires OwnManifest(service, ServiceKind, p.owner.ns) && service.key in Footprint(p)
    ensures var (t, url) := FindUrl(o, p, s, service, ByNodePort, None);
      EdgeDone(o, p, s, t, url, service, ByNodePort, task)
  {
    hide EnsureSame, Settled, WellFormed, Footprint, Works, Proceeds, AllThere, NodePortUrl, Matches, NodeUrl;
    var u := EnsureSame(o, p, s, service, SameService).0;
    ComparedWorks(o, p, s, service, SameService);
    NodePortKeeps(o, p, u, service);
    NodePortWorks(o, p, u, service);
    if Prompt(o, s.w.home, service, ByNodePort) { EnsureSamePort(o, p, s, service); }
    NodeUrlIsUrl(p.nodeHost, PortOf(u.w.home, service.key));
  }

  lemma NodeUrlIsUrl(host: string, port: nat)
    ensures NodeUrl(host, port) != ""
  {
    hide Decimal;
  }

  lemma PortIgnoresRoute(o: Oracle, p: Plan, s: Run, service: Manifest, route: Option<Manifest>)
    ensures FindUrl(o, p, s, service, ByNodePort, route) == FindUrl(o, p, s, service, ByNodePort, None)
  {
    hide EnsureSame, NodePortUrl;
  }

  lemma RoutedWorks(o: Oracle, p: Plan, s: Run, service: Manifest, route: Manifest)
    requires WellFormed(p) && InPlace(p, s) && Works(o) && s.halt == None && AllThere(p, s.w.home)
    requires route.RouteM? && route.key in Footprint(p) && route.key.kind == RouteKind
    ensures var (t, url) := RoutedUrl(o, p, s, service, Some(route));
      && OnlyAt(s.w.home, t.w.home, route.key) && Cost(t.w.home, route, SameRoute) == 0
      && (Cost(s.w.home, route, SameRoute) == 0 && RouteUrl(s.w.home[route.key]) != "" ==>
            t.halt == None && Kept(s, t) && url == RouteUrl(s.w.home[route.key]))
  {
    hide EnsureSame, Settled, WellFormed, Footprint, Works, Proceeds, AllThere, Matches, RouteUrl, Quit;
    ComparedWorks(o, p, s, route, SameRoute);
    var (u, found) := EnsureSame(o, p, s, route, SameRoute);
    QuitKeeps(o, u, Pending, WaitingForUrl(service.key), Requeued);
    PlainProper(p, s, route, SameRoute);
    EnsureSameSettles(o, p, s, route, SameRoute);
  }

  lemma ByRouteWorks(o: Oracle, p: Plan, s: Run, service: Manifest, task: RouteTask, route: Manifest)
    requires WellFormed(p) && InPlace(p, s) && Works(o) && s.halt == None && AllThere(p, s.w.home)
    requires OwnManifest(service, ServiceKind, p.owner.ns) && service.key in Footprint(p)
    requires task.key in Footprint(p) && task.key.kind == RouteKind
    requires IsRouteOf(task, Some(route)) && RouteWanted(p, task, s.w.home) == Some(route)
    ensures var (t, url) := FindUrl(o, p, s, service, ByRoute, Some(route));
      EdgeDone(o, p, s, t, url, service, ByRoute, task)
  {
    hide EnsureSame, Settled, WellFormed, Footprint, Works, Proceeds, AllThere, RoutedUrl, Matches;
    hide RouteWanted, RouteUrl;
    var u := EnsureSame(o, p, s, service, SameService).0;
    ComparedWorks(o, p, s, service, SameService);
    WantedAfter(p, s, u, service, task);
    RoutedWorks(o, p, u, service, route);
    var t := RoutedUrl(o, p, u, service, Some(route)).0;
    WantedFrame(p, u.w.home, t.w.home, task.key, task);
    CostFrame(u.w.home, t.w.home, task.key, service, SameService);
    CostFrame(s.w.home, u.w.home, service.key, route, SameRoute);
  }

  lemma FindUrlWorks(
    o: Oracle, p: Plan, s: Run, service: Manifest, access: Access, task: RouteTask, route: Option<Manifest>)
    requires WellFormed(p) && InPlace(p, s) && Works(o) && s.halt == None && AllThere(p, s.w.home)
    requires OwnManifest(service, ServiceKind, p.owner.ns) && service.key in Footprint(p)
    requires task.key in Footprint(p) && task.key.kind == RouteKind
    requires Served(access) && (access.ByRoute? ==> p.routes) && Built(p, s, task, route)
    ensures var (t, url) := FindUrl(o, p, s, service, access, route);
      EdgeDone(o, p, s, t, url, service, access, task)
  {
    hide FindUrl, WellFormed, Footprint, Works, AllThere, RouteWanted, EdgeDone;
    match access
    case ByNodePort =>
      ByPortWorks(o, p, s, service, task);
      PortIgnoresRoute(o, p, s, service, route);
    case ByRoute =>
      ByRouteWorks(o, p, s, service, task, route.value);
  }

  // The last parts

  lemma PodIsWanted(p: Plan, u: string, v: string)
    ensures IsPodOf(p, p.appPod(u, v)) && (p.keycloakPod(u).Some? ==> IsPodOf(p, p.keycloakPod(u).value))
  {
  }

  lemma AppPodKeys(p: Plan, u: string, v: string)
    requires WellFormed(p)
    ensures p.appPod(u, v).key == p.appPodKey != p.postgresPod.key
    ensures p.keycloakPod(u).Some? ==> p.keycloakPod(u).value.key == p.keycloakPodKey != p.postgresPod.key
  {
    hide SecretsFormed, MapsFormed, ServicesFormed, RoutesFormed;
  }

  lemma AppPartWorks(o: Oracle, p: Plan, s: Run, keycloakUrl: string, url: string)
    requires WellFormed(p) && InPlace(p, s) && Works(o) && s.halt == None && AllThere(p, s.w.home)
    ensures var t := AppPart(o, p, s, keycloakUrl, url);
      && t.halt == None && InPlace(p, t) && AllThere(p, t.w.home)
      && OnlyAt(s.w.home, t.w.home, p.appPodKey) && Cost(t.w.home, p.appPod(keycloakUrl, url), SamePod) == 0
  {
    hide EnsureSame, WellFormed, Works, AllThere, Cost;
    AppPodKeys(p, keycloakUrl, url);
    PodIsWanted(p, keycloakUrl, url);
    PodWorks(o, p, s.(st := s.st.(publicUrl := url)), p.appPod(keycloakUrl, url));
  }

  lemma FinishWorks(o: Oracle, p: Plan, s: Run)
    requires WellFormed(p) && InPlace(p, s) && Works(o) && s.halt == None && AllThere(p, s.w.home)
    ensures var t := Finish(o, p, s);
      OnlyAt(s.w.home, t.w.home, p.upload.key) && p.upload.key in t.w.home
  {
    hide EnsureSame, WellFormed, Works, AllThere, Settled, Footprint, Proceeds;
    FootprintHas(p);
    UploadFits(p);
    ComparedWorks(o, p, s, p.upload, Exists);
    ThereWhenSettled(s, EnsureSame(o, p, s, p.upload, Exists).0, p.upload, Exists);
  }

  /* After the URL of the application is known. */
  lemma AppEndWorks(o: Oracle, p: Plan, s: Run, keycloakUrl: string, url: string)
    requires WellFormed(p) && InPlace(p, s) && Works(o) && s.halt == None && AllThere(p, s.w.home)
    requires Buildable(p, s.w.home, p.appRoute)
    ensures var t := Finish(o, p, AppPart(o, p, s, keycloakUrl, url));
      && Touched(s.w.home, t.w.home, {p.appPodKey, p.upload.key})
      && AppEdge(p, t.w.home) == AppEdge(p, s.w.home) && AppUrlNow(p, t.w.home) == AppUrlNow(p, s.w.home)
      && Cost(t.w.home, p.appPod(keycloakUrl, url), SamePod) == 0 && p.upload.key in t.w.home
  {
    hide WellFormed, Works, AllThere, AppPart, Finish, Cost, Proceeds, EdgeCost, UrlNow, Buildable, InPlace;
    var s9 := AppPart(o, p, s, keycloakUrl, url);
    var t := Finish(o, p, s9);
    AppPartWorks(o, p, s, keycloakUrl, url);
    FinishWorks(o, p, s9);
    AppPartProceeds(o, p, s, keycloakUrl, url);
    FinishProceeds(o, p, s9);
    ProceedsTransitive(p, s, s9, t);
    AppPodKeys(p, keycloakUrl, url);
    LateKeysDiffer(p);
    CostFrame(s9.w.home, t.w.home, p.upload.key, p.appPod(keycloakUrl, url), SamePod);
    EdgeTouched(p, s, t, {p.appPodKey, p.upload.key}, p.appService, p.appAccess, p.appRoute);
  }

  lemma LateKeysDiffer(p: Plan)
    requires WellFormed(p)
    ensures p.appPodKey != p.upload.key && (p.appAccess.ByRoute? || p.keycloakAccess.ByRoute? ==> p.routes)
    ensures p.appService.key !in {p.appPodKey, p.upload.key} && p.appRoute.key !in {p.appPodKey, p.upload.key}
    ensures {p.keycloakService.key, p.keycloakRoute.key} !! {p.keycloakPodKey} + AppKeys(p)
    ensures p.keycloakPodKey !in AppKeys(p)
    ensures {p.postgresMap.key, p.postgresPod.key, p.postgresService.key} !! KeycloakKeys(p) + AppKeys(p)
  {
  }

  function AppKeys(p: Plan): set<Key> {
    {p.appService.key, p.appRoute.key, p.appPodKey, p.upload.key}
  }

  function KeycloakKeys(p: Plan): set<Key> {
    {p.keycloakService.key, p.keycloakRoute.key, p.keycloakPodKey}
  }

  function EarlyKeys(p: Plan): set<Key> {
    CertKeys(p) + {p.trustKey} + SecretKeys(p) + {p.postgresMap.key, p.postgresPod.key, p.postgresService.key}
  }

  ghost predicate AppAtOnce(o: Oracle, p: Plan, h: map<Key, Obj>) {
    AtOnce(o, p, h, p.appService, p.appAccess, p.appRoute)
  }

  ghost predicate KeycloakAtOnce(o: Oracle, p: Plan, h: map<Key, Obj>) {
    p.keycloakUri != "" || AtOnce(o, p, h, p.keycloakService, p.keycloakAccess, p.keycloakRoute)
  }

  /* What the application's part of a run achieves. */
  ghost predicate AppDone(o: Oracle, p: Plan, h: map<Key, Obj>, h': map<Key, Obj>, keycloakUrl: string) {
    && Touched(h, h', AppKeys(p)) && AppEdge(p, h') == 0
    && (AppAtOnce(o, p, h) ==>
          && AppUrlNow(p, h') != "" && Cost(h', p.appPod(keycloakUrl, AppUrlNow(p, h')), SamePod) == 0
          && p.upload.key in h')
  }

  lemma AppRestWorks(o: Oracle, p: Plan, s: Run, keycloakUrl: string)
    requires WellFormed(p) && InPlace(p, s) && Works(o) && s.halt == None && AllThere(p, s.w.home)
    requires Served(p.appAccess) && Buildable(p, s.w.home, p.appRoute)
    ensures var (s7, route) := BuildRoute(o, p, s, p.appRoute);
      var (s8, url) := FindUrl(o, p, s7, p.appService, p.appAccess, route);
      AppDone(o, p, s.w.home, Finish(o, p, AppPart(o, p, s8, keycloakUrl, url)).w.home, keycloakUrl)
  {
    hide WellFormed, Works, AllThere, AppPart, Finish, Cost, Proceeds, EdgeCost, UrlNow, Buildable, InPlace, BuildRoute;
    hide FindUrl, AtOnce, Footprint, Served, Built;
    var (s7, route) := BuildRoute(o, p, s, p.appRoute);
    var (s8, url) := FindUrl(o, p, s7, p.appService, p.appAccess, route);
    AppFormed(p);
    RoutedOnlyWithRoutes(p);
    AnswersWhenWorks(o);
    BuildRouteRests(o, p, s, p.appRoute);
    BuildRouteProceeds(o, p, s, p.appRoute);
    BuildPays(o, p, s, p.appRoute);
    FindUrlWorks(o, p, s7, p.appService, p.appAccess, p.appRoute, route);
    FindUrlProceeds(o, p, s7, p.appService, p.appAccess, p.appRoute, route);
    if s8.halt == None {
      BuildableStays(p, s7, s8, p.appRoute);
      AppEndWorks(o, p, s8, keycloakUrl, url);
    } else {
      HaltedEnd(o, p, s8, keycloakUrl, url);
    }
  }

  lemma AnswersWhenWorks(o: Oracle)
    requires Works(o)
    ensures Answers(o)
  {
  }

  lemma HaltedEnd(o: Oracle, p: Plan, s: Run, keycloakUrl: string, url: string)
    requires s.halt.Some?
    ensures Finish(o, p, AppPart(o, p, s, keycloakUrl, url)) == s
  {
  }

  /* What Keycloak's pod part achieves, given the URL it was called with. */
  ghost predicate KeycloakDone(p: Plan, h: map<Key, Obj>, h': map<Key, Obj>, url: string) {
    && Touched(h, h', if p.keycloakUri == "" then {p.keycloakPodKey} else KeycloakKeys(p))
    && p.keycloakPod(url).Some?
    && (p.keycloakUri == "" ==> Cost(h', p.keycloakPod(url).value, SamePod) == 0)
    && (p.keycloakUri != "" ==> KeycloakEdge(p, h') == 0 && p.keycloakPodKey !in h')
  }

  lemma KeycloakGoneWorks(o: Oracle, p: Plan, s: Run)
    requires WellFormed(p) && InPlace(p, s) && Works(o) && s.halt == None && AllThere(p, s.w.home)
    requires p.keycloakUri != ""
    ensures var s1 := EnsureDeleted(o, s, p.keycloakPodKey);
      var s2 := EnsureDeleted(o, s1, p.keycloakService.key);
      var t := if p.routes then EnsureDeleted(o, s2, p.keycloakRoute.key) else s2;
      && t.halt == None
      && Touched(s.w.home, t.w.home, KeycloakKeys(p)) && KeycloakEdge(p, t.w.home) == 0 && p.keycloakPodKey !in t.w.home
  {
    hide WellFormed, Works, AllThere, EnsureDeleted, InPlace, Footprint;
    FootprintHas(p);
    KeycloakKinds(p);
    var s1 := EnsureDeleted(o, s, p.keycloakPodKey);
    var s2 := EnsureDeleted(o, s1, p.keycloakService.key);
    GoneWorks(o, p, s, p.keycloakPodKey);
    GoneWorks(o, p, s1, p.keycloakService.key);
    if p.routes { GoneWorks(o, p, s2, p.keycloakRoute.key); }
  }

  lemma KeycloakKinds(p: Plan)
    requires WellFormed(p)
    ensures p.keycloakPodKey.kind == PodKind && p.keycloakService.key.kind == ServiceKind
    ensures p.keycloakRoute.key.kind == RouteKind
    ensures p.postgresMap.ConfigMapM?
  {
  }

  lemma KeycloakPartWorks(o: Oracle, p: Plan, s: Run, url: string)
    requires WellFormed(p) && InPlace(p, s) && Works(o) && s.halt == None && AllThere(p, s.w.home)
    requires p.keycloakPod(url).Some?
    ensures var t := KeycloakPart(o, p, s, url);
      t.halt == None && KeycloakDone(p, s.w.home, t.w.home, url)
  {
    hide EnsureSame, EnsureDeleted, WellFormed, Works, AllThere, Cost, KeycloakEdge;
    var r := s.(st := s.st.(keycloakUrl := url));
    if p.keycloakUri == "" {
      AppPodKeys(p, url, "");
      PodIsWanted(p, url, "");
      PodWorks(o, p, r, p.keycloakPod(url).value);
    } else {
      KeycloakGoneWorks(o, p, r);
    }
  }

  /* The run up to where Keycloak's URL is looked for. */
  lemma FirstHalfWorks(o: Oracle, p: Plan, s: Run)
    requires WellFormed(p) && InPlace(p, s) && Works(o) && s.halt == None && Startable(p, s.w.home)
    ensures var g := StagesOf(o, p, s);
      && g.s0.halt == None && g.s4.halt == None && AllThere(p, g.s4.w.home) && InPlace(p, g.s4)
      && AllThere(p, g.s2.w.home)
      && PostgresCost(p, g.s4.w.home) == 0 && Touched(s.w.home, g.s4.w.home, EarlyKeys(p))
      && AuthorityUsable(p, g.s1.w.home)
      && Built(p, g.s4, p.keycloakRoute, g.keycloakRoute) && Kept(s, g.s0)
  {
    hide WellFormed, Works, AllThere, Proceeds, TrustPart, SecretsPart, PostgresPart, BuildRoute, Prologue;
    hide InPlace, Built;
    hide KeycloakUrl, KeycloakPart, FindUrl, AppPart, Finish, Buildable, PostgresCost, AuthorityUsable;
    hide CertKeys, SecretKeys;
    hide Obtainable;
    var g := StagesOf(o, p, s);
    StagesHold(o, p, s);
    StartsUp(o, p, s);
    AnswersWhenWorks(o);
    TrustPartWorks(o, p, g.s0);
    TrustPartTouches(o, p, g.s0);
    SecretsPartWorks(o, p, g.s1);
    PostgresPartWorks(o, p, g.s2);
    BuildableToHere(p, g, p.keycloakRoute);
    BuildRouteRests(o, p, g.s3, p.keycloakRoute);
    BuildPays(o, p, g.s3, p.keycloakRoute);
  }

  lemma StartsUp(o: Oracle, p: Plan, s: Run)
    requires s.halt == None && !p.hostMissing
    ensures Prologue(o, p, s).halt == None
  {
  }

  /* The later stages of a run follow from the earlier ones. */
  lemma StagesFollow(p: Plan, g: Stages)
    requires Staged(p, g)
    ensures Proceeds(p, g.s0, g.s3) && Proceeds(p, g.s0, g.s4) && Proceeds(p, g.s6, g.end) && Proceeds(p, g.s5, g.end)
    ensures Proceeds(p, g.s4, g.end) && Proceeds(p, g.s2, g.end) && Proceeds(p, g.s1, g.end) && Proceeds(p, g.s0, g.end)
  {
    hide Proceeds;
    ProceedsTransitive(p, g.s0, g.s1, g.s2);
    ProceedsTransitive(p, g.s0, g.s2, g.s3);
    ProceedsTransitive(p, g.s0, g.s3, g.s4);
    ProceedsTransitive(p, g.s8, g.s9, g.end);
    ProceedsTransitive(p, g.s7, g.s8, g.end);
    ProceedsTransitive(p, g.s6, g.s7, g.end);
    ProceedsTransitive(p, g.s5, g.s6, g.end);
    ProceedsTransitive(p, g.s4, g.s5, g.end);
    ProceedsTransitive(p, g.s3, g.s4, g.end);
    ProceedsTransitive(p, g.s2, g.s3, g.end);
    ProceedsTransitive(p, g.s1, g.s2, g.end);
    ProceedsTransitive(p, g.s0, g.s1, g.end);
  }

  lemma ObtainedIsBuildable(p: Plan, s: Run, t: Run, task: RouteTask)
    requires WellFormed(p) && Proceeds(p, s, t) && Obtainable(p, s.w.home, task) && AllThere(p, t.w.home)
    ensures Buildable(p, t.w.home, task)
  {
    hide WellFormed, Proceeds, RouteFor, TlsFromSecret, SecretKeys, CertKeys;
    if Buildable(p, s.w.home, task) { BuildableStays(p, s, t, task); }
  }

  lemma BuildableToHere(p: Plan, g: Stages, task: RouteTask)
    requires WellFormed(p) && Staged(p, g) && Obtainable(p, g.s0.w.home, task) && AllThere(p, g.s2.w.home)
    ensures Buildable(p, g.s3.w.home, task) && Buildable(p, g.s4.w.home, task) && Buildable(p, g.s5.w.home, task)
    ensures Buildable(p, g.s6.w.home, task) && Buildable(p, g.end.w.home, task)
  {
    hide WellFormed, Proceeds, Buildable, Obtainable, AllThere;
    StagesFollow(p, g);
    ProceedsTransitive(p, g.s0, g.s1, g.s2);
    ObtainedIsBuildable(p, g.s0, g.s2, task);
    BuildableStays(p, g.s2, g.s3, task);
    BuildableStays(p, g.s3, g.s4, task);
    BuildableStays(p, g.s4, g.s5, task);
    BuildableStays(p, g.s5, g.s6, task);
    BuildableStays(p, g.s6, g.end, task);
  }

  lemma CheapIsBuildable(p: Plan, h: map<Key, Obj>, service: Manifest, task: RouteTask)
    requires EdgeCost(p, h, service, ByRoute, task) == 0
    ensures Buildable(p, h, task)
  {
    hide Cost, TlsFromSecret;
  }

  lemma AtOnceStays(
    o: Oracle, p: Plan, s: Run, t: Run, ks: set<Key>, service: Manifest, access: Access, task: RouteTask)
    requires WellFormed(p) && Proceeds(p, s, t) && Touched(s.w.home, t.w.home, ks)
    requires service.key !in ks && task.key !in ks
    requires access.ByRoute? ==> p.routes
    requires AtOnce(o, p, s.w.home, service, access, task)
    ensures AtOnce(o, p, t.w.home, service, access, task)
  {
    hide Proceeds, WellFormed, Matches, EdgeCost, UrlNow, Buildable;
    if access.ByRoute? { CheapIsBuildable(p, s.w.home, service, task); }
    EdgeTouched(p, s, t, ks, service, access, task);
    CostTouched(s.w.home, t.w.home, ks, service, SameService);
  }

  /* What is in place for Keycloak once its URL was looked for. */
  lemma KeycloakUrlWorks(o: Oracle, p: Plan, s: Run, route: Option<Manifest>)
    requires WellFormed(p) && InPlace(p, s) && Works(o) && s.halt == None && AllThere(p, s.w.home)
    requires p.keycloakUri == "" ==> Served(p.keycloakAccess)
    requires Built(p, s, p.keycloakRoute, route)
    ensures var (t, url) := KeycloakUrl(o, p, s, route);
      && (p.keycloakUri == "" ==> EdgeDone(o, p, s, t, url, p.keycloakService, p.keycloakAccess, p.keycloakRoute))
      && (p.keycloakUri != "" ==> t == s && url == p.keycloakUri)
  {
    hide FindUrl, WellFormed, Footprint, Works, AllThere, RouteWanted, EdgeDone, Built, Served;
    if p.keycloakUri == "" {
      AppFormed(p);
      LateKeysDiffer(p);
      FindUrlWorks(o, p, s, p.keycloakService, p.keycloakAccess, p.keycloakRoute, route);
    }
  }

  /* Nothing is left to do for the first parts and for Keycloak's service and route. */
  predicate FirstDone(p: Plan, h: map<Key, Obj>) {
    TrustCost(p, h) == 0 && SecretsCost(p, h) == 0 && PostgresCost(p, h) == 0 && KeycloakEdge(p, h) == 0
  }

  predicate SecondDone(p: Plan, h: map<Key, Obj>) {
    FirstDone(p, h) && KeycloakPodCost(p, h) == 0 && AppEdge(p, h) == 0
  }

  lemma ThereCostsNothing(p: Plan, h: map<Key, Obj>)
    requires AllThere(p, h)
    ensures TrustCost(p, h) == 0 && SecretsCost(p, h) == 0
  {
    assert p.dbAdmin.key in SecretKeys(p) && p.appUser.key in SecretKeys(p) && p.keycloakAdmin.key in SecretKeys(p);
    assert p.keycloakDb.key in SecretKeys(p) && p.admin.key in SecretKeys(p) && p.trustKey in Provided(p);
    assert p.caKey in CertKeys(p) && p.appCert.key in CertKeys(p) && p.keycloakCert.key in CertKeys(p);
  }

  lemma PostgresTouched(p: Plan, h: map<Key, Obj>, h': map<Key, Obj>, ks: set<Key>)
    requires Touched(h, h', ks) && {p.postgresMap.key, p.postgresPod.key, p.postgresService.key} !! ks
    ensures PostgresCost(p, h') == PostgresCost(p, h)
  {
    hide Matches;
    assert p.postgresMap.key !in ks && p.postgresPod.key !in ks && p.postgresService.key !in ks;
  }

  /* A run that waits for Keycloak's URL. */
  lemma WaitingRun(p: Plan, h4: map<Key, Obj>, h5: map<Key, Obj>)
    requires WellFormed(p) && p.keycloakUri == "" && PostgresCost(p, h4) == 0 && AllThere(p, h5)
    requires Touched(h4, h5, {p.keycloakService.key, p.keycloakRoute.key})
    requires EdgeCost(p, h5, p.keycloakService, p.keycloakAccess, p.keycloakRoute) == 0
    ensures FirstDone(p, h5)
  {
    hide WellFormed, PostgresCost, TrustCost, SecretsCost, EdgeCost, AllThere;
    LateKeysDiffer(p);
    ThereCostsNothing(p, h5);
    PostgresTouched(p, h4, h5, {p.keycloakService.key, p.keycloakRoute.key});
  }

  /* The rest of a run that found Keycloak's URL. */
  lemma GoingRun(p: Plan, s4: Run, s5: Run, s6: Run, t: Run, url: string)
    requires WellFormed(p) && PostgresCost(p, s4.w.home) == 0 && AllThere(p, t.w.home) && Proceeds(p, s5, t)
    requires Buildable(p, s5.w.home, p.keycloakRoute)
    requires p.keycloakUri == "" ==>
      Touched(s4.w.home, s5.w.home, {p.keycloakService.key, p.keycloakRoute.key}) &&
      EdgeCost(p, s5.w.home, p.keycloakService, p.keycloakAccess, p.keycloakRoute) == 0
    requires p.keycloakUri != "" ==> s5.w.home == s4.w.home
    requires KeycloakDone(p, s5.w.home, s6.w.home, url)
    requires Touched(s6.w.home, t.w.home, AppKeys(p))
    ensures FirstDone(p, t.w.home)
    ensures url == KeycloakUrlNow(p, s5.w.home) && url != "" ==>
      KeycloakPodCost(p, t.w.home) == 0 && KeycloakUrlNow(p, t.w.home) == url
  {
    hide WellFormed, PostgresCost, TrustCost, SecretsCost, EdgeCost, AllThere, Buildable, Proceeds, UrlNow, Cost;
    hide AppKeys;
    LateKeysDiffer(p);
    AppKeysAre(p);
    ThereCostsNothing(p, t.w.home);
    PostgresTouched(p, s4.w.home, t.w.home, KeycloakKeys(p) + AppKeys(p));
    if p.keycloakUri == "" {
      AppPodKeys(p, url, "");
      EdgeTouched(p, s5, t, {p.keycloakPodKey} + AppKeys(p), p.keycloakService, p.keycloakAccess, p.keycloakRoute);
      CostTouched(s6.w.home, t.w.home, AppKeys(p), p.keycloakPod(url).value, SamePod);
    }
  }

  lemma AppKeysAre(p: Plan)
    requires WellFormed(p)
    ensures p.keycloakService.key !in AppKeys(p) && p.keycloakRoute.key !in AppKeys(p)
    ensures p.appService.key !in EarlyKeys(p) + KeycloakKeys(p) && p.appRoute.key !in EarlyKeys(p) + KeycloakKeys(p)
    ensures p.keycloakService.key !in EarlyKeys(p) && p.keycloakRoute.key !in EarlyKeys(p)
    ensures p.appPodKey !in EarlyKeys(p) + KeycloakKeys(p)
    ensures p.appRoute.key != p.appService.key && p.appPodKey !in {p.appService.key, p.appRoute.key}
  {
    hide SecretKeys, CertKeys, SecretsFormed;
    KindsOfKeys(p);
    NotASecret(p, p.appService.key);
    NotASecret(p, p.appRoute.key);
    NotASecret(p, p.appPodKey);
    NotASecret(p, p.keycloakService.key);
    NotASecret(p, p.keycloakRoute.key);
  }

  /* How far a run gets, by what is known at its start. */
  ghost predicate Advances(o: Oracle, p: Plan, h: map<Key, Obj>, h': map<Key, Obj>) {
    && FirstDone(p, h')
    && (KeycloakAtOnce(o, p, h) ==> SecondDone(p, h'))
    && (KeycloakAtOnce(o, p, h) && AppAtOnce(o, p, h) ==> Potential(p, h') == 0)
  }

  lemma RunThatWaits(o: Oracle, p: Plan, s: Run)
    requires WellFormed(p) && InPlace(p, s) && Works(o) && s.halt == None && Viable(p, s.w.home)
    requires StagesOf(o, p, s).s5.halt.Some?
    ensures Advances(o, p, s.w.home, Execute(o, p, s).w.home)
  {
    hide WellFormed, Works, Proceeds, Buildable, Obtainable, Built, AtOnce, StagesOf, Execute, Staged, AllThere;
    hide FirstDone, SecondDone, Potential, PostgresCost, EdgeCost, UrlNow, KeycloakUrl, KeycloakPart;
    hide BuildRoute, FindUrl, AppPart, Finish, Prologue, TrustPart, SecretsPart, PostgresPart, Footprint;
    var g := StagesOf(o, p, s);
    FirstHalfWorks(o, p, s);
    StagesHold(o, p, s);
    FirstStage(o, p, s);
    StagesFollow(p, g);
    BuildableToHere(p, g, p.keycloakRoute);
    BuildableToHere(p, g, p.appRoute);
    StageSteps(o, p, s);
    KeycloakUrlWorks(o, p, g.s4, g.keycloakRoute);
    HaltedStages(o, p, s);
    LateKeysDiffer(p);
    AppKeysAre(p);
    ProvidedStays(p, g.s4, g.end);
    WaitingRun(p, g.s4.w.home, g.s5.w.home);
    if AtOnce(o, p, s.w.home, p.keycloakService, p.keycloakAccess, p.keycloakRoute) {
      AtOnceStays(o, p, g.s0, g.s4, EarlyKeys(p), p.keycloakService, p.keycloakAccess, p.keycloakRoute);
    }
  }

  lemma HaltedStages(o: Oracle, p: Plan, s: Run)
    requires StagesOf(o, p, s).s5.halt.Some?
    ensures StagesOf(o, p, s).end == StagesOf(o, p, s).s5
  {
    hide Prologue, TrustPart, SecretsPart, PostgresPart, KeycloakUrl, TlsFromSecret;
  }

  lemma HousedStages(p: Plan, g: Stages)
    requires AllHoused(p, g)
    ensures g.s2.halt == None ==> AllThere(p, g.s2.w.home)
    ensures InPlace(p, g.s4) && InPlace(p, g.s5) && InPlace(p, g.s6)
    ensures g.s5.halt == None ==> AllThere(p, g.s5.w.home)
    ensures g.s6.halt == None ==> AllThere(p, g.s6.w.home)
  {
    hide AllThere;
  }

  /* A run goes on with the URL of the route as it was found. */
  lemma RoutedUrlSource(o: Oracle, p: Plan, s: Run, service: Manifest, route: Manifest)
    requires WellFormed(p) && InPlace(p, s) && s.halt == None
    requires route.RouteM? && route.key in Footprint(p) && route.key.kind == RouteKind
    ensures var (t, url) := RoutedUrl(o, p, s, service, Some(route));
      t.halt == None ==> url != "" && route.key in s.w.home && url == RouteUrl(s.w.home[route.key])
  {
    hide EnsureSame, Footprint, WellFormed, Proceeds, Settled, Quit, RouteUrl;
    PlainProper(p, s, route, SameRoute);
    EnsureSameSettles(o, p, s, route, SameRoute);
    QuitKeeps(o, EnsureSame(o, p, s, route, SameRoute).0, Pending, WaitingForUrl(service.key), Requeued);
  }

  /* Where the URL for Keycloak that a run goes on with comes from. */
  ghost predicate UrlSource(p: Plan, h: map<Key, Obj>, url: string) {
    if p.keycloakUri != "" then url == p.keycloakUri
    else match p.keycloakAccess
      case ByNodePort => exists port: nat :: port != 0 && url == NodeUrl(p.nodeHost, port)
      case ByRoute => p.keycloakRoute.key in h && url == RouteUrl(h[p.keycloakRoute.key])
      case _ => false
  }

  lemma SourceParses(p: Plan, h: map<Key, Obj>, url: string)
    requires UrlSource(p, h, url) && url != "" && Parses(p, h)
    ensures p.keycloakPod(url).Some?
  {
    hide RouteUrl, NodeUrl;
  }

  /** Whatever fails, a run goes on only with a URL for Keycloak from one source:
      the external one, a node port that is not zero, or the route as it was found. */
  lemma FoundUrl(o: Oracle, p: Plan, s: Run, route: Option<Manifest>)
    requires WellFormed(p) && InPlace(p, s) && Built(p, s, p.keycloakRoute, route)
    ensures var (t, url) := KeycloakUrl(o, p, s, route);
      t.halt == None ==> url != "" && UrlSource(p, s.w.home, url)
  {
    hide WellFormed, Built, Pays, EnsureSame, Proceeds, Settled, Footprint, AwaitUrl, NodeUrl, RouteUrl, RoutedUrl;
    hide RouteWanted, KeycloakUrlNow;
    KeycloakUrlPays(o, p, s, route);
    if s.halt == None && p.keycloakUri == "" {
      AppFormed(p);
      LateKeysDiffer(p);
      var u := EnsureSame(o, p, s, p.keycloakService, SameService).0;
      PlainProceeds(o, p, s, p.keycloakService, SameService);
      SettledPrice(s, u, p.keycloakService, SameService);
      if u.halt == None {
        match p.keycloakAccess {
          case ByNodePort =>
          case ByLoadBalancer => LoadBalancerProceeds(o, p, u, p.keycloakService);
          case ByRoute =>
            BuiltRoute(p, s, p.keycloakRoute, route);
            RoutedUrlSource(o, p, u, p.keycloakService, route.value);
          case Nowhere => AwaitProceeds(o, p, u, p.keycloakService);
        }
      }
    }
  }

  lemma BuiltRoute(p: Plan, s: Run, task: RouteTask, route: Option<Manifest>)
    requires Built(p, s, task, route) && s.halt == None && p.routes
    ensures route.Some? && route.value.RouteM? && route.value.key == task.key
  {
    hide RouteWanted;
  }

  lemma ParsesTouched(p: Plan, h: map<Key, Obj>, h': map<Key, Obj>, ks: set<Key>)
    requires Parses(p, h) && Touched(h, h', ks) && p.keycloakRoute.key !in ks
    ensures Parses(p, h')
  {
    hide RouteUrl, NodeUrl;
  }

  /* What was known at the start of the run is still known when it matters. */
  lemma KnownLater(o: Oracle, p: Plan, s0: Run, s4: Run, s5: Run, s6: Run, url: string)
    requires WellFormed(p) && Proceeds(p, s0, s4) && Proceeds(p, s4, s5) && Proceeds(p, s5, s6)
    requires Touched(s0.w.home, s4.w.home, EarlyKeys(p))
    requires p.keycloakUri == "" ==>
      EdgeDone(o, p, s4, s5, url, p.keycloakService, p.keycloakAccess, p.keycloakRoute)
    requires p.keycloakUri != "" ==> s5 == s4 && url == p.keycloakUri
    requires KeycloakDone(p, s5.w.home, s6.w.home, url)
    ensures KeycloakAtOnce(o, p, s0.w.home) ==> url == KeycloakUrlNow(p, s5.w.home) && url != ""
    ensures AppAtOnce(o, p, s0.w.home) ==> AppAtOnce(o, p, s6.w.home)
  {
    hide WellFormed, Proceeds, Buildable, AtOnce, EdgeCost, UrlNow, Cost, KeycloakEdge, EarlyKeys, Matches;
    LateKeysDiffer(p);
    AppKeysAre(p);
    KeycloakTouches(p, s4.w.home, s5.w.home, s6.w.home, url);
    TouchedOn(s0.w.home, s4.w.home, s6.w.home, EarlyKeys(p), KeycloakKeys(p));
    ProceedsTransitive(p, s0, s4, s5);
    ProceedsTransitive(p, s0, s5, s6);
    if p.keycloakUri == "" && KeycloakAtOnce(o, p, s0.w.home) {
      AtOnceStays(o, p, s0, s4, EarlyKeys(p), p.keycloakService, p.keycloakAccess, p.keycloakRoute);
    }
    if AppAtOnce(o, p, s0.w.home) {
      AtOnceStays(o, p, s0, s6, EarlyKeys(p) + KeycloakKeys(p), p.appService, p.appAccess, p.appRoute);
    }
  }

  lemma KeycloakTouches(p: Plan, h4: map<Key, Obj>, h5: map<Key, Obj>, h6: map<Key, Obj>, url: string)
    requires Touched(h4, h5, {p.keycloakService.key, p.keycloakRoute.key}) && KeycloakDone(p, h5, h6, url)
    ensures Touched(h4, h6, KeycloakKeys(p))
  {
    hide KeycloakEdge, Cost;
  }

  lemma NothingLeft(p: Plan, h: map<Key, Obj>)
    requires SecondDone(p, h) && KeycloakUrlNow(p, h) != "" && AppUrlNow(p, h) != ""
    requires Cost(h, p.appPod(KeycloakUrlNow(p, h), AppUrlNow(p, h)), SamePod) == 0 && p.upload.key in h
    ensures Potential(p, h) == 0
  {
    hide Cost, TrustCost, SecretsCost, PostgresCost, KeycloakEdge, KeycloakPodCost, AppEdge, UrlNow;
  }

  /* The URL that a run goes on with parses. */
  lemma GoesOnParses(o: Oracle, p: Plan, s: Run)
    requires WellFormed(p) && InPlace(p, s) && Works(o) && s.halt == None
    requires Startable(p, s.w.home) && Parses(p, s.w.home)
    ensures var g := StagesOf(o, p, s); g.s5.halt == None ==> p.keycloakPod(g.keycloakUrl).Some?
  {
    hide WellFormed, Works, Startable, Built, StagesOf, Execute, AllThere, InPlace, KeycloakUrl, Parses, UrlSource;
    hide PostgresCost, EarlyKeys, KeycloakPart, BuildRoute, FindUrl, AppPart, Finish, TrustPart, SecretsPart;
    hide PostgresPart;
    var g := StagesOf(o, p, s);
    FirstHalfWorks(o, p, s);
    StageSteps(o, p, s);
    FoundUrl(o, p, g.s4, g.keycloakRoute);
    AppKeysAre(p);
    ParsesTouched(p, s.w.home, g.s4.w.home, EarlyKeys(p));
    if g.s5.halt == None { SourceParses(p, g.s4.w.home, g.keycloakUrl); }
  }

  lemma NowParses(p: Plan, h: map<Key, Obj>)
    requires Parses(p, h) && KeycloakUrlNow(p, h) != ""
    ensures p.keycloakPod(KeycloakUrlNow(p, h)).Some?
  {
    hide RouteUrl, NodeUrl;
  }

  lemma RunThatGoesOn(o: Oracle, p: Plan, s: Run)
    requires WellFormed(p) && InPlace(p, s) && Works(o) && s.halt == None && Viable(p, s.w.home)
    requires StagesOf(o, p, s).s5.halt == None
    ensures Advances(o, p, s.w.home, Execute(o, p, s).w.home)
  {
    hide WellFormed, Works, Proceeds, Buildable, Obtainable, Built, AtOnce, StagesOf, Execute, AllThere;
    hide AllHoused, InPlace;
    hide FirstDone, Potential, PostgresCost, EdgeCost, UrlNow, KeycloakUrl, KeycloakPart, BuildRoute, FindUrl;
    hide AppPart, Finish;
    hide Cost, KeycloakPodCost, AppPodCost, KeycloakEdge, AppKeys, EarlyKeys, KeycloakKeys, KeycloakUrlNow, AppUrlNow;
    var g := StagesOf(o, p, s);
    FirstHalfWorks(o, p, s);
    StagesHold(o, p, s);
    FirstStage(o, p, s);
    StagesFollow(p, g);
    BuildableToHere(p, g, p.keycloakRoute);
    BuildableToHere(p, g, p.appRoute);
    StageSteps(o, p, s);
    HousedStages(p, g);
    KeycloakUrlWorks(o, p, g.s4, g.keycloakRoute);
    GoesOnParses(o, p, s);
    KeycloakPartWorks(o, p, g.s5, g.keycloakUrl);
    AppRestWorks(o, p, g.s6, g.keycloakUrl);
    ProvidedStays(p, g.s4, g.end);
    GoingRun(p, g.s4, g.s5, g.s6, g.end, g.keycloakUrl);
    KnownLater(o, p, g.s0, g.s4, g.s5, g.s6, g.keycloakUrl);
    if KeycloakAtOnce(o, p, s.w.home) && AppAtOnce(o, p, s.w.home) {
      NothingLeft(p, g.end.w.home);
    }
  }

  lemma StaysSettleable(o: Oracle, p: Plan, s: Run)
    requires WellFormed(p) && InPlace(p, s) && Works(o) && s.halt == None && Settleable(p, s.w.home)
    ensures Settleable(p, Execute(o, p, s).w.home)
  {
    hide WellFormed, Works, Proceeds, Buildable, Built, StagesOf, Execute, AllHoused, ReadAuthority, Staged;
    hide PostgresCost, Touched, EarlyKeys, Prologue;
    var g := StagesOf(o, p, s);
    FirstHalfWorks(o, p, s);
    StagesHold(o, p, s);
    StagesFollow(p, g);
    BuildableToHere(p, g, p.keycloakRoute);
    BuildableToHere(p, g, p.appRoute);
    if !p.routes {
      AuthorityThere(o, p, s);
      SecretOrBundleStays(p, g.s1, g.end, p.caKey);
    }
  }

  lemma AuthorityThere(o: Oracle, p: Plan, s: Run)
    requires WellFormed(p) && InPlace(p, s) && s.halt == None && !p.routes && StagesOf(o, p, s).s4.halt == None
    ensures p.caKey in StagesOf(o, p, s).s1.w.home && p.caKey in CertKeys(p)
  {
    hide WellFormed, Proceeds, TrustPart, SecretsPart, PostgresPart, BuildRoute, Prologue, KeycloakUrl, KeycloakPart;
    hide FindUrl, AppPart, Finish, AllThere;
    var g := StagesOf(o, p, s);
    StagesHold(o, p, s);
    TrustPartProceeds(o, p, g.s0);
    HaltedForGood(p, g.s3, g.s4);
    HaltedForGood(p, g.s2, g.s3);
    HaltedForGood(p, g.s1, g.s2);
  }

  /** What one run without faults achieves, from any state of the cluster. */
  lemma RunAdvances(o: Oracle, env: Env, cr: Horreum, w: World)
    requires Sound(w) && SameResource(Some(cr), w.cr) && Works(o) && Viable(PlanOf(env, cr), w.home)
    ensures var p := PlanOf(env, cr);
      var t := Reconcile(o, env, w).w;
      && Advances(o, p, w.home, t.home) && Settleable(p, t.home)
      && Sound(t) && SameResource(Some(cr), t.cr)
  {
    hide Execute, Advances, Settleable, Parses, PlanFor, WellFormed, StagesOf;
    var p := PlanOf(env, cr);
    assert PlanOf(env, w.cr.value) == p;
    Names.PlanIsWellFormed(env, cr);
    Names.PlanOwner(env, w.cr.value);
    RunsAreSafe(o, env, w);
    var s := Run(Tick(o, w), w.cr.value.status, [], None);
    if StagesOf(o, p, s).s5.halt == None { RunThatGoesOn(o, p, s); } else { RunThatWaits(o, p, s); }
    StaysSettleable(o, p, s);
  }
}
