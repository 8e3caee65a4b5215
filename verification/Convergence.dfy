/**
  Convergence under faults: every create and delete is paid for by the
  potential, whatever the API server answers and wherever a run stops.
 */
module Convergence {
  import opened Wrappers
  import opened Resources
  import opened HorreumApi
  import opened Matching
  import opened Worlds
  import opened Plans
  import opened Steps
  import opened Effects
  import opened Potentials
  import opened Safety

  function Calls(s: Run, t: Run): int {
    |t.w.log| - |s.w.log|
  }

  /* The changes between two states cost at most the potential they remove,
     with something to spare (or a debt, when negative). */
  ghost predicate Pays(p: Plan, s: Run, t: Run, spare: int) {
    Calls(s, t) + Potential(p, t.w.home) + spare <= Potential(p, s.w.home)
  }

  lemma PaysOn(p: Plan, s: Run, t: Run, u: Run, a: int, b: int)
    requires Pays(p, s, t, a) && Pays(p, t, u, b)
    ensures Pays(p, s, u, a + b)
  {
    hide Potential;
  }

  // The price of one object

  lemma SettledPrice(s: Run, t: Run, want: Manifest, mode: Mode)
    requires Settled(s, t, want, mode) && Fits(mode, want)
    ensures OnlyAt(s.w.home, t.w.home, want.key)
    ensures Calls(s, t) == Cost(s.w.home, want, mode) - Cost(t.w.home, want, mode)
    ensures 0 <= Calls(s, t) <= 2
    ensures t.halt == None ==> Cost(t.w.home, want, mode) == 0
    ensures Calls(s, t) == 0 ==> Kept(s, t)
    ensures Calls(s, t) == 1 && want.key !in s.w.home ==> CreatedNow(s, t, want)
    ensures Calls(s, t) == 2 ==> ReplacedNow(s, t, want)
  {
    hide Matches, CheckProblem, Represents, Fits;
    if want.key in t.w.home && Represents(want, t.w.home[want.key]) {
      RepresentativeMatches(mode, want, t.w.home[want.key]);
    }
  }

  lemma ClearedPrice(s: Run, t: Run, k: Key)
    requires Cleared(s, t, k)
    ensures OnlyAt(s.w.home, t.w.home, k)
    ensures Calls(s, t) == Extra(s.w.home, k) - Extra(t.w.home, k)
    ensures t.halt == None ==> s.halt == None && Extra(t.w.home, k) == 0
  {
  }

  lemma ProvisionedPrice(s: Run, t: Run, k: Key, made: Option<Manifest>)
    requires Provisioned(s, t, k, made) && (made.Some? ==> made.value.key == k)
    ensures OnlyAt(s.w.home, t.w.home, k)
    ensures (t.w.home == s.w.home && Calls(s, t) == 0) || (k !in s.w.home && k in t.w.home && Calls(s, t) == 1)
  {
    hide Represents;
  }

  // Part by part

  lemma KeptPays(p: Plan, s: Run, t: Run)
    requires Kept(s, t)
    ensures Pays(p, s, t, 0)
  {
    hide Potential;
  }

  /* An object that only has to be there. */
  lemma MapPays(p: Plan, s: Run, t: Run, want: Manifest, mode: Mode)
    requires WellFormed(p) && Settled(s, t, want, mode) && (mode.Exists? || mode.HasKeys?)
    requires want.key in SecretKeys(p) || want.key == p.trustKey || want.key == p.upload.key
    ensures Pays(p, s, t, 0)
  {
    hide Potential, CheckProblem, Represents, Encode, SamePorts;
    SettledPrice(s, t, want, mode);
    MapKind(p, want.key);
    if t.w.home != s.w.home {
      AddedMap(p, s.w.home, t.w.home, want.key);
    }
  }

  lemma MadePays(p: Plan, s: Run, t: Run, k: Key, made: Option<Manifest>)
    requires WellFormed(p) && Provisioned(s, t, k, made) && (made.Some? ==> made.value.key == k)
    requires k == p.trustKey || (!p.routes && k in CertKeys(p))
    ensures Pays(p, s, t, 0)
  {
    hide Potential, Represents;
    ProvisionedPrice(s, t, k, made);
    MapKind(p, k);
    if t.w.home != s.w.home {
      AddedMap(p, s.w.home, t.w.home, k);
    }
  }

  lemma LoadAuthorityPays(o: Oracle, p: Plan, s: Run)
    requires WellFormed(p) && InPlace(p, s) && !p.routes
    ensures Pays(p, s, LoadAuthority(o, p, s).0, 0)
  {
    hide Potential, LoadAuthority, NewAuthority;
    LoadAuthorityShape(o, p, s);
    CertKinds(p);
    var t := LoadAuthority(o, p, s).0;
    if Kept(s, t) {
      KeptPays(p, s, t);
    } else {
      AddedMap(p, s.w.home, t.w.home, p.caKey);
    }
  }

  lemma TrustPartPays(o: Oracle, p: Plan, s: Run)
    requires WellFormed(p) && InPlace(p, s)
    ensures Pays(p, s, TrustPart(o, p, s), 0)
  {
    hide Pays, EnsureSame, LoadAuthority, CreateIfMissing, Settled, Provisioned, InPlace, WellFormed;
    hide Footprint, Proceeds;
    FootprintHas(p);
    if s.halt.Some? {
      KeptPays(p, s, s);
    } else if p.routes {
      PlainProceeds(o, p, s, TrustManifest(p), Exists);
      MapPays(p, s, TrustPart(o, p, s), TrustManifest(p), Exists);
    } else {
      var (s1, authority) := CreateCA(o, p, s);
      var s2 := CreateServiceCert(o, p, s1, authority, p.appCert);
      CreateCAPays(o, p, s);
      CreateCAProceeds(o, p, s);
      StaysInPlace(p, s, s1);
      CertPays(o, p, s1, authority, p.appCert);
      CertProceeds(o, p, s1, authority, p.appCert);
      StaysInPlace(p, s1, s2);
      CertPays(o, p, s2, authority, p.keycloakCert);
      PaysOn(p, s, s1, s2, 0, 0);
      PaysOn(p, s, s2, TrustPart(o, p, s), 0, 0);
    }
  }

  lemma CreateCAPays(o: Oracle, p: Plan, s: Run)
    requires WellFormed(p) && InPlace(p, s) && !p.routes
    ensures Pays(p, s, CreateCA(o, p, s).0, 0)
  {
    hide Pays, LoadAuthority, CreateIfMissing, Provisioned, WellFormed, Footprint, Proceeds;
    FootprintHas(p);
    var (t, authority) := LoadAuthority(o, p, s);
    LoadAuthorityPays(o, p, s);
    if authority.Some? {
      LoadAuthorityProceeds(o, p, s);
      StaysInPlace(p, s, t);
      OwnKey(p, t, p.trustKey);
      var made := Some(TrustBundle(p, authority.value));
      CreateIfMissingProvisions(o, p, t, p.trustKey, made);
      MadePays(p, t, CreateCA(o, p, s).0, p.trustKey, made);
      PaysOn(p, s, t, CreateCA(o, p, s).0, 0, 0);
    }
  }

  lemma CertPays(o: Oracle, p: Plan, s: Run, authority: Option<Authority>, task: CertTask)
    requires WellFormed(p) && InPlace(p, s) && !p.routes && task.key in CertKeys(p)
    ensures Pays(p, s, CreateServiceCert(o, p, s, authority, task), 0)
  {
    hide Pays, CreateIfMissing, Provisioned, WellFormed, Footprint, ServiceCertificate, CertKeys;
    FootprintHas(p);
    OwnKey(p, s, task.key);
    if s.halt.Some? || authority == None {
      KeptPays(p, s, CreateServiceCert(o, p, s, authority, task));
    } else {
      var made := CertSecret(o, s.w.clock + 1, p, authority.value, task);
      CreateIfMissingProvisions(o, p, s, task.key, made);
      MadePays(p, s, CreateServiceCert(o, p, s, authority, task), task.key, made);
    }
  }

  lemma SecretStepPays(o: Oracle, p: Plan, s: Run, task: SecretTask)
    requires WellFormed(p) && InPlace(p, s) && task.key in SecretKeys(p)
    ensures Pays(p, s, SecretStep(o, p, s, task), 0) && InPlace(p, SecretStep(o, p, s, task))
  {
    hide Pays, EnsureSame, Settled, InPlace, WellFormed, Footprint, Proceeds, SecretKeys;
    FootprintHas(p);
    var want := SecretManifest(o, s.w.clock, task);
    PlainProceeds(o, p, s, want, HasKeys(NeededKeys(task)));
    MapPays(p, s, SecretStep(o, p, s, task), want, HasKeys(NeededKeys(task)));
  }

  lemma SecretsPartPays(o: Oracle, p: Plan, s: Run)
    requires WellFormed(p) && InPlace(p, s)
    ensures Pays(p, s, SecretsPart(o, p, s), 0)
  {
    hide Pays, SecretStep, InPlace, WellFormed;
    var s1 := SecretStep(o, p, s, p.dbAdmin);
    var s2 := SecretStep(o, p, s1, p.appUser);
    var s3 := SecretStep(o, p, s2, p.keycloakAdmin);
    var s4 := SecretStep(o, p, s3, p.keycloakDb);
    SecretStepPays(o, p, s, p.dbAdmin);
    SecretStepPays(o, p, s1, p.appUser);
    SecretStepPays(o, p, s2, p.keycloakAdmin);
    SecretStepPays(o, p, s3, p.keycloakDb);
    SecretStepPays(o, p, s4, p.admin);
    PaysOn(p, s, s1, s2, 0, 0);
    PaysOn(p, s, s2, s3, 0, 0);
    PaysOn(p, s, s3, s4, 0, 0);
    PaysOn(p, s, s4, SecretsPart(o, p, s), 0, 0);
  }

  lemma PostgresStepPays(p: Plan, s: Run, t: Run, want: Manifest, mode: Mode)
    requires WellFormed(p) && p.postgres && Settled(s, t, want, mode)
    requires (want == p.postgresMap && mode == SameData) || (want == p.postgresPod && mode == SamePod) ||
             (want == p.postgresService && mode == SameService)
    ensures Pays(p, s, t, 0)
  {
    hide Potential, Settled, Cost, Matches;
    SettledPrice(s, t, want, mode);
    var h, h' := s.w.home, t.w.home;
    PostgresChange(p, h, h', want.key);
    if want.key != p.postgresMap.key { CostFrame(h, h', want.key, p.postgresMap, SameData); }
    if want.key != p.postgresPod.key { CostFrame(h, h', want.key, p.postgresPod, SamePod); }
    if want.key != p.postgresService.key { CostFrame(h, h', want.key, p.postgresService, SameService); }
  }

  lemma PostgresGonePays(p: Plan, s: Run, t: Run, k: Key)
    requires WellFormed(p) && !p.postgres && Cleared(s, t, k)
    requires k == p.postgresPod.key || k == p.postgresService.key
    ensures Pays(p, s, t, 0)
  {
    hide Potential;
    ClearedPrice(s, t, k);
    PostgresChange(p, s.w.home, t.w.home, k);
  }

  lemma PostgresPartPays(o: Oracle, p: Plan, s: Run)
    requires WellFormed(p) && InPlace(p, s) && (s.halt == None ==> AllThere(p, s.w.home))
    ensures Pays(p, s, PostgresPart(o, p, s), 0)
  {
    hide Pays, Proceeds, EnsureSame, EnsureDeleted, Settled, Footprint, AllThere, InPlace;
    FootprintHas(p);
    var t := PostgresPart(o, p, s);
    if p.postgres {
      var s1 := EnsureSame(o, p, s, p.postgresMap, SameData).0;
      var s2 := EnsureSame(o, p, s1, p.postgresPod, SamePod).0;
      ComparedProceeds(o, p, s, p.postgresMap, SameData);
      HaltedForGood(p, s, s1);
      assert s1.halt == None ==> p.postgresMap.key in s1.w.home by { ThereWhenSettled(s, s1, p.postgresMap, SameData); }
      PodProceeds(o, p, s1, p.postgresPod);
      ComparedProceeds(o, p, s2, p.postgresService, SameService);
      PostgresStepPays(p, s, s1, p.postgresMap, SameData);
      PostgresStepPays(p, s1, s2, p.postgresPod, SamePod);
      PostgresStepPays(p, s2, t, p.postgresService, SameService);
      PaysOn(p, s, s1, s2, 0, 0);
      PaysOn(p, s, s2, t, 0, 0);
    } else {
      var s1 := EnsureDeleted(o, s, p.postgresPod.key);
      DeletedProceeds(o, p, s, p.postgresPod.key);
      DeletedProceeds(o, p, s1, p.postgresService.key);
      PostgresGonePays(p, s, s1, p.postgresPod.key);
      PostgresGonePays(p, s1, t, p.postgresService.key);
      PaysOn(p, s, s1, t, 0, 0);
    }
  }

  lemma ThereWhenSettled(s: Run, t: Run, want: Manifest, mode: Mode)
    requires Settled(s, t, want, mode)
    ensures t.halt == None ==> s.halt == None && want.key in t.w.home
  {
  }

  lemma BuildRouteWants(o: Oracle, p: Plan, s: Run, task: RouteTask)
    requires InPlace(p, s)
    ensures var (t, route) := BuildRoute(o, p, s, task);
      t.halt == None ==> route == RouteWanted(p, task, s.w.home) && route.Some? == p.routes
  {
    hide RouteFor, TlsFromSecret;
  }

  // Keycloak's service and route

  lemma KeycloakServicePays(p: Plan, s: Run, t: Run)
    requires WellFormed(p) && p.keycloakUri == "" && Settled(s, t, p.keycloakService, SameService)
    ensures Pays(p, s, t, 0)
  {
    hide Potential, Settled, Cost, RouteCost;
    var h, h' := s.w.home, t.w.home;
    SettledPrice(s, t, p.keycloakService, SameService);
    if Calls(s, t) == 0 {
      KeptPays(p, s, t);
    } else {
      KeycloakEdgeChange(p, h, h', p.keycloakService.key);
      RouteCostFrame(p, h, h', p.keycloakService.key, p.keycloakRoute);
    }
  }

  lemma KeycloakRoutePays(p: Plan, s: Run, t: Run, route: Manifest)
    requires WellFormed(p) && p.keycloakUri == "" && p.keycloakAccess.ByRoute?
    requires Settled(s, t, route, SameRoute) && IsRouteOf(p.keycloakRoute, Some(route))
    requires RouteWanted(p, p.keycloakRoute, s.w.home) == Some(route)
    ensures Pays(p, s, t, 0)
    ensures Calls(s, t) == 2 ==> Pays(p, s, t, 4)
  {
    hide Potential, Settled, Cost;
    var h, h' := s.w.home, t.w.home;
    SettledPrice(s, t, route, SameRoute);
    if Calls(s, t) == 0 {
      KeptPays(p, s, t);
    } else {
      KeycloakEdgeChange(p, h, h', route.key);
      CostFrame(h, h', route.key, p.keycloakService, SameService);
      WantedFrame(p, h, h', route.key, p.keycloakRoute);
    }
  }

  lemma WantedFrame(p: Plan, h: map<Key, Obj>, h': map<Key, Obj>, k: Key, task: RouteTask)
    requires OnlyAt(h, h', k) && k.kind != SecretKind
    ensures RouteWanted(p, task, h') == RouteWanted(p, task, h)
  {
    hide RouteFor, TlsFromSecret;
  }

  lemma AppServicePays(p: Plan, s: Run, t: Run)
    requires WellFormed(p) && Settled(s, t, p.appService, SameService)
    ensures Pays(p, s, t, 0)
  {
    hide Potential, Settled, Cost, RouteCost;
    var h, h' := s.w.home, t.w.home;
    SettledPrice(s, t, p.appService, SameService);
    if Calls(s, t) == 0 {
      KeptPays(p, s, t);
    } else {
      AppEdgeChange(p, h, h', p.appService.key);
      RouteCostFrame(p, h, h', p.appService.key, p.appRoute);
    }
  }

  lemma AppRoutePays(p: Plan, s: Run, t: Run, route: Manifest)
    requires WellFormed(p) && p.appAccess.ByRoute?
    requires Settled(s, t, route, SameRoute) && IsRouteOf(p.appRoute, Some(route))
    requires RouteWanted(p, p.appRoute, s.w.home) == Some(route)
    ensures Pays(p, s, t, 0)
    ensures Calls(s, t) == 2 ==> Pays(p, s, t, 4)
  {
    hide Potential, Settled, Cost;
    var h, h' := s.w.home, t.w.home;
    SettledPrice(s, t, route, SameRoute);
    if Calls(s, t) == 0 {
      KeptPays(p, s, t);
    } else {
      AppEdgeChange(p, h, h', route.key);
      CostFrame(h, h', route.key, p.appService, SameService);
      WantedFrame(p, h, h', route.key, p.appRoute);
    }
  }

  // The URL a run goes on with

  /* A run that found a URL either has the one the live objects give, or has
     just replaced the route it took it from. */
  predicate UrlIsCurrent(p: Plan, t: Run, url: string, service: Manifest, access: Access, task: RouteTask) {
    url != "" && url == UrlNow(p, t.w.home, service.key, access, task.key)
  }

  predicate UrlIsStale(p: Plan, t: Run, url: string, service: Manifest, access: Access, task: RouteTask) {
    url != "" && access.ByRoute? && UrlNow(p, t.w.home, service.key, access, task.key) == ""
  }

  lemma NodePortUrlIsCurrent(o: Oracle, p: Plan, s: Run, service: Manifest, task: RouteTask)
    requires InPlace(p, s) && s.halt == None && service.key.ns == p.owner.ns
    ensures var (t, url) := NodePortUrl(o, p, s, service);
      t.halt == None ==> Kept(s, t) && UrlIsCurrent(p, t, url, service, ByNodePort, task)
  {
    hide Decimal;
  }

  lemma RoutedUrlIsKnown(o: Oracle, p: Plan, s: Run, service: Manifest, task: RouteTask, route: Option<Manifest>)
    requires WellFormed(p) && InPlace(p, s) && s.halt == None
    requires route.Some? && IsRouteOf(task, route) && task.key in Footprint(p) && task.key.kind == RouteKind
    ensures var (t, url) := RoutedUrl(o, p, s, service, route);
      var u := EnsureSame(o, p, s, route.value, SameRoute).0;
      && Kept(u, t)
      && (t.halt == None ==> t == u)
      && (t.halt == None ==>
            UrlIsCurrent(p, t, url, service, ByRoute, task) ||
            (Calls(s, t) == 2 && UrlIsStale(p, t, url, service, ByRoute, task)))
  {
    hide EnsureSame, Settled, Footprint, Proceeds, WellFormed, Represents, Quit;
    var want := route.value;
    var (t, url) := RoutedUrl(o, p, s, service, route);
    var (u, found) := EnsureSame(o, p, s, want, SameRoute);
    PlainProper(p, s, want, SameRoute);
    EnsureSameSettles(o, p, s, want, SameRoute);
    QuitKeeps(o, u, Pending, WaitingForUrl(service.key), Requeued);
    if t.halt == None {
      FoundOrReplaced(s, u, want);
    }
  }

  lemma FoundOrReplaced(s: Run, t: Run, want: Manifest)
    requires Settled(s, t, want, SameRoute) && t.halt == None && want.key in s.w.home && want.RouteM?
    ensures Kept(s, t) || (Calls(s, t) == 2 && want.key in t.w.home && RouteUrl(t.w.home[want.key]) == "")
  {
    hide Matches, CheckProblem;
  }

  /* What the rest of the run may rely on when it goes on with a URL. */
  ghost predicate Addressed(p: Plan, s: Run, t: Run, url: string, now: string) {
    url != "" && (url == now || (now == "" && Pays(p, s, t, 4)))
  }

  predicate Built(p: Plan, s: Run, task: RouteTask, route: Option<Manifest>) {
    IsRouteOf(task, route) &&
    (s.halt == None ==> route == RouteWanted(p, task, s.w.home) && route.Some? == p.routes)
  }

  lemma KeycloakUrlPays(o: Oracle, p: Plan, s: Run, route: Option<Manifest>)
    requires WellFormed(p) && InPlace(p, s) && Built(p, s, p.keycloakRoute, route)
    ensures var (t, url) := KeycloakUrl(o, p, s, route);
      && Pays(p, s, t, 0)
      && (t.halt == None ==> Addressed(p, s, t, url, KeycloakUrlNow(p, t.w.home)))
  {
    hide Pays, EnsureSame, Settled, Footprint, Proceeds, AwaitUrl, NodePortUrl, RoutedUrl, Potential;
    hide RouteWanted, UrlNow;
    FootprintHas(p);
    if s.halt.Some? || p.keycloakUri != "" {
      KeptPays(p, s, s);
      return;
    }
    var u := EnsureSame(o, p, s, p.keycloakService, SameService).0;
    var (t, url) := KeycloakUrl(o, p, s, route);
    PlainProceeds(o, p, s, p.keycloakService, SameService);
    KeycloakServicePays(p, s, u);
    if u.halt == None {
      match p.keycloakAccess {
        case ByNodePort =>
          NodePortUrlIsCurrent(o, p, u, p.keycloakService, p.keycloakRoute);
          NodePortKeeps(o, p, u, p.keycloakService);
          KeptPays(p, u, t);
          PaysOn(p, s, u, t, 0, 0);
        case ByLoadBalancer =>
          LoadBalancerProceeds(o, p, u, p.keycloakService);
          KeptPays(p, u, t);
          PaysOn(p, s, u, t, 0, 0);
        case ByRoute =>
          WantedAfter(p, s, u, p.keycloakService, p.keycloakRoute);
          RoutedUrlIsKnown(o, p, u, p.keycloakService, p.keycloakRoute, route);
          PlainProceeds(o, p, u, route.value, SameRoute);
          var v := EnsureSame(o, p, u, route.value, SameRoute).0;
          KeycloakRoutePays(p, u, v, route.value);
          KeptPays(p, v, t);
          PaysOn(p, u, v, t, 0, 0);
          PaysOn(p, s, u, t, 0, 0);
          if t.halt == None && Calls(u, t) == 2 { PaysOn(p, s, u, t, 0, 4); }
        case Nowhere =>
          AwaitProceeds(o, p, u, p.keycloakService);
          KeptPays(p, u, t);
          PaysOn(p, s, u, t, 0, 0);
      }
    }
  }

  lemma NodePortKeeps(o: Oracle, p: Plan, s: Run, service: Manifest)
    ensures Kept(s, NodePortUrl(o, p, s, service).0)
  {
    hide Decimal;
  }

  /* Settling a service does not change the route that is wanted. */
  lemma WantedAfter(p: Plan, s: Run, t: Run, service: Manifest, task: RouteTask)
    requires Settled(s, t, service, SameService) && service.ServiceM? && service.key.kind == ServiceKind
    ensures RouteWanted(p, task, t.w.home) == RouteWanted(p, task, s.w.home)
  {
    hide Settled, RouteWanted;
    SettledPrice(s, t, service, SameService);
    WantedFrame(p, s.w.home, t.w.home, service.key, task);
  }

  lemma KeycloakPartPays(o: Oracle, p: Plan, s: Run, url: string)
    requires WellFormed(p) && InPlace(p, s) && (s.halt == None ==> AllThere(p, s.w.home))
    requires s.halt == None ==> url != "" && (url == KeycloakUrlNow(p, s.w.home) || KeycloakUrlNow(p, s.w.home) == "")
    ensures var t := KeycloakPart(o, p, s, url);
      && Pays(p, s, t, if s.halt.Some? || url == KeycloakUrlNow(p, s.w.home) then 0 else -2)
      && (s.halt == None && t.halt == None ==> KeycloakUrlNow(p, t.w.home) == KeycloakUrlNow(p, s.w.home))
  {
    hide EnsureSame, EnsureDeleted, Settled, Footprint, Proceeds, Potential, KeycloakUrlNow, AllThere;
    FootprintHas(p);
    if s.halt.Some? {
      KeptPays(p, s, s);
      return;
    }
    var r := s.(st := s.st.(keycloakUrl := url));
    var t := KeycloakPart(o, p, s, url);
    var pod := p.keycloakPod(url);
    if pod == None {
      KeptPays(p, s, t);
    } else if p.keycloakUri == "" {
      PodProceeds(o, p, r, pod.value);
      KeycloakPodPays(p, r, t, url, pod.value);
    } else {
      KeycloakGonePays(o, p, r);
      UriIsUrl(p, s.w.home);
      UriIsUrl(p, t.w.home);
    }
  }

  lemma KeycloakPodPays(p: Plan, s: Run, t: Run, url: string, pod: Manifest)
    requires WellFormed(p) && p.keycloakUri == "" && p.keycloakPod(url) == Some(pod) && url != ""
    requires Settled(s, t, pod, SamePod)
    requires url == KeycloakUrlNow(p, s.w.home) || KeycloakUrlNow(p, s.w.home) == ""
    ensures Pays(p, s, t, if url == KeycloakUrlNow(p, s.w.home) then 0 else -2)
    ensures KeycloakUrlNow(p, t.w.home) == KeycloakUrlNow(p, s.w.home)
  {
    hide Potential, Settled, Cost, KeycloakUrlNow;
    SettledPrice(s, t, pod, SamePod);
    KeycloakPodChange(p, s.w.home, t.w.home);
  }

  lemma UriIsUrl(p: Plan, h: map<Key, Obj>)
    ensures p.keycloakUri != "" ==> KeycloakUrlNow(p, h) == p.keycloakUri
  {
    hide UrlNow;
  }

  lemma KeycloakGonePays(o: Oracle, p: Plan, s: Run)
    requires WellFormed(p) && InPlace(p, s) && s.halt == None && AllThere(p, s.w.home) && p.keycloakUri != ""
    ensures var s1 := EnsureDeleted(o, s, p.keycloakPodKey);
      var s2 := EnsureDeleted(o, s1, p.keycloakService.key);
      var t := if p.routes then EnsureDeleted(o, s2, p.keycloakRoute.key) else s2;
      Pays(p, s, t, 0)
  {
    hide Pays, EnsureDeleted, Cleared, Footprint, Proceeds, InPlace, AllThere;
    FootprintHas(p);
    var s1 := EnsureDeleted(o, s, p.keycloakPodKey);
    var s2 := EnsureDeleted(o, s1, p.keycloakService.key);
    DeletedProceeds(o, p, s, p.keycloakPodKey);
    GonePays(p, s, s1, p.keycloakPodKey);
    DeletedProceeds(o, p, s1, p.keycloakService.key);
    GonePays(p, s1, s2, p.keycloakService.key);
    PaysOn(p, s, s1, s2, 0, 0);
    if p.routes {
      DeletedProceeds(o, p, s2, p.keycloakRoute.key);
      GonePays(p, s2, EnsureDeleted(o, s2, p.keycloakRoute.key), p.keycloakRoute.key);
      PaysOn(p, s, s2, EnsureDeleted(o, s2, p.keycloakRoute.key), 0, 0);
    }
  }

  lemma GonePays(p: Plan, s: Run, t: Run, k: Key)
    requires WellFormed(p) && p.keycloakUri != "" && Cleared(s, t, k)
    requires k == p.keycloakPodKey || k == p.keycloakService.key || (p.routes && k == p.keycloakRoute.key)
    ensures Pays(p, s, t, 0)
  {
    hide Potential, UrlNow;
    ClearedPrice(s, t, k);
    if k == p.keycloakPodKey {
      KeycloakPodChange(p, s.w.home, t.w.home);
    } else {
      KeycloakEdgeChange(p, s.w.home, t.w.home, k);
    }
  }

  lemma AppUrlPays(o: Oracle, p: Plan, s: Run, route: Option<Manifest>)
    requires WellFormed(p) && InPlace(p, s) && Built(p, s, p.appRoute, route)
    ensures var (t, url) := FindUrl(o, p, s, p.appService, p.appAccess, route);
      && Pays(p, s, t, 0)
      && (t.halt == None ==> Addressed(p, s, t, url, AppUrlNow(p, t.w.home)))
      && (t.halt == None ==> KeycloakUrlNow(p, t.w.home) == KeycloakUrlNow(p, s.w.home))
  {
    hide Pays, EnsureSame, Settled, Footprint, Proceeds, AwaitUrl, NodePortUrl, RoutedUrl, Potential;
    hide RouteWanted, UrlNow;
    hide KeycloakUrlNow;
    FootprintHas(p);
    var u := EnsureSame(o, p, s, p.appService, SameService).0;
    var (t, url) := FindUrl(o, p, s, p.appService, p.appAccess, route);
    PlainProceeds(o, p, s, p.appService, SameService);
    AppServicePays(p, s, u);
    SameKeycloakUrl(p, s, u, p.appService, SameService);
    ThereWhenSettled(s, u, p.appService, SameService);
    if u.halt == None {
      match p.appAccess {
        case ByNodePort =>
          NodePortUrlIsCurrent(o, p, u, p.appService, p.appRoute);
          NodePortKeeps(o, p, u, p.appService);
          KeptPays(p, u, t);
          PaysOn(p, s, u, t, 0, 0);
        case ByLoadBalancer =>
          LoadBalancerProceeds(o, p, u, p.appService);
          KeptPays(p, u, t);
          PaysOn(p, s, u, t, 0, 0);
        case ByRoute =>
          WantedAfter(p, s, u, p.appService, p.appRoute);
          RoutedUrlIsKnown(o, p, u, p.appService, p.appRoute, route);
          PlainProceeds(o, p, u, route.value, SameRoute);
          var v := EnsureSame(o, p, u, route.value, SameRoute).0;
          AppRoutePays(p, u, v, route.value);
          SameKeycloakUrl(p, u, v, route.value, SameRoute);
          KeptPays(p, v, t);
          PaysOn(p, u, v, t, 0, 0);
          PaysOn(p, s, u, t, 0, 0);
          if t.halt == None && Calls(u, t) == 2 { PaysOn(p, s, u, t, 0, 4); }
        case Nowhere =>
          AwaitProceeds(o, p, u, p.appService);
          KeptPays(p, u, t);
          PaysOn(p, s, u, t, 0, 0);
      }
    }
  }

  lemma SameKeycloakUrl(p: Plan, s: Run, t: Run, want: Manifest, mode: Mode)
    requires WellFormed(p) && Settled(s, t, want, mode) && Fits(mode, want)
    requires want.key == p.appService.key || want.key == p.appRoute.key
    ensures KeycloakUrlNow(p, t.w.home) == KeycloakUrlNow(p, s.w.home)
  {
    hide Settled, KeycloakUrlNow, Fits;
    SettledPrice(s, t, want, mode);
    KeycloakUrlFrame(p, s.w.home, t.w.home, want.key);
  }

  lemma AppPartPays(o: Oracle, p: Plan, s: Run, keycloakUrl: string, url: string)
    requires WellFormed(p) && InPlace(p, s) && (s.halt == None ==> AllThere(p, s.w.home))
    requires s.halt == None ==> keycloakUrl != "" && url != ""
    requires s.halt == None ==> keycloakUrl == KeycloakUrlNow(p, s.w.home) || KeycloakUrlNow(p, s.w.home) == ""
    requires s.halt == None ==> url == AppUrlNow(p, s.w.home) || AppUrlNow(p, s.w.home) == ""
    ensures Pays(p, s, AppPart(o, p, s, keycloakUrl, url),
                 if s.halt.Some? || (keycloakUrl == KeycloakUrlNow(p, s.w.home) && url == AppUrlNow(p, s.w.home))
                 then 0 else -2)
  {
    hide EnsureSame, Settled, Footprint, Proceeds, Potential, KeycloakUrlNow, AppUrlNow, AllThere, Cost;
    FootprintHas(p);
    if s.halt.Some? {
      KeptPays(p, s, s);
      return;
    }
    var r := s.(st := s.st.(publicUrl := url));
    var t := AppPart(o, p, s, keycloakUrl, url);
    var pod := p.appPod(keycloakUrl, url);
    PodProceeds(o, p, r, pod);
    SettledPrice(r, t, pod, SamePod);
    AppPodChange(p, r.w.home, t.w.home);
  }

  lemma FinishPays(o: Oracle, p: Plan, s: Run)
    requires WellFormed(p) && InPlace(p, s)
    ensures Pays(p, s, Finish(o, p, s), 0)
  {
    hide Pays, EnsureSame, Settled, Footprint, Proceeds, WellFormed;
    FootprintHas(p);
    PlainProceeds(o, p, s, p.upload, Exists) by { UploadFits(p); }
    var t := EnsureSame(o, p, s, p.upload, Exists).0;
    UploadFits(p);
    MapPays(p, s, t, p.upload, Exists);
    KeptPays(p, t, Finish(o, p, s));
    PaysOn(p, s, t, Finish(o, p, s), 0, 0);
  }

  lemma UploadFits(p: Plan)
    requires WellFormed(p)
    ensures p.upload.ConfigMapM?
  {
  }

  lemma BuildPays(o: Oracle, p: Plan, s: Run, task: RouteTask)
    requires WellFormed(p) && InPlace(p, s)
    ensures var (t, route) := BuildRoute(o, p, s, task);
      && Pays(p, s, t, 0) && InPlace(p, t) && Built(p, t, task, route) && t.w.home == s.w.home
      && (t.halt == None ==> s.halt == None)
  {
    hide BuildRoute, RouteWanted, Proceeds, WellFormed, Potential;
    BuildRouteProceeds(o, p, s, task);
    BuildRouteWants(o, p, s, task);
    KeptPays(p, s, BuildRoute(o, p, s, task).0);
  }

  /* The first half of a run, up to the point where Keycloak's URL is known. */
  lemma FirstHalfPays(o: Oracle, p: Plan, s: Run)
    requires WellFormed(p) && InPlace(p, s)
    ensures var s3 := PostgresPart(o, p, SecretsPart(o, p, TrustPart(o, p, s)));
      var (s4, route) := BuildRoute(o, p, s3, p.keycloakRoute);
      Pays(p, s, s4, 0) && InPlace(p, s4) && Built(p, s4, p.keycloakRoute, route)
      && (s4.halt == None ==> AllThere(p, s4.w.home))
  {
    hide Pays, TrustPart, SecretsPart, PostgresPart, BuildRoute, WellFormed, Proceeds, InPlace, AllThere, Built;
    var s1 := TrustPart(o, p, s);
    var s2 := SecretsPart(o, p, s1);
    var s3 := PostgresPart(o, p, s2);
    TrustPartPays(o, p, s);
    TrustPartProceeds(o, p, s);
    SecretsPartPays(o, p, s1);
    SecretsPartProceeds(o, p, s1);
    PostgresPartPays(o, p, s2);
    PostgresPartProceeds(o, p, s2);
    BuildPays(o, p, s3, p.keycloakRoute);
    PaysOn(p, s, s1, s2, 0, 0);
    PaysOn(p, s, s2, s3, 0, 0);
    PaysOn(p, s, s3, BuildRoute(o, p, s3, p.keycloakRoute).0, 0, 0);
  }

  /* The second half, with a URL for Keycloak that may be stale. */
  lemma SecondHalfPays(o: Oracle, p: Plan, s: Run, keycloakUrl: string)
    requires WellFormed(p) && InPlace(p, s) && s.halt == None && AllThere(p, s.w.home)
    requires keycloakUrl != ""
    requires keycloakUrl == KeycloakUrlNow(p, s.w.home) || KeycloakUrlNow(p, s.w.home) == ""
    ensures var s6 := KeycloakPart(o, p, s, keycloakUrl);
      var (s7, route) := BuildRoute(o, p, s6, p.appRoute);
      var (s8, url) := FindUrl(o, p, s7, p.appService, p.appAccess, route);
      var t := Finish(o, p, AppPart(o, p, s8, keycloakUrl, url));
      Pays(p, s, t, if keycloakUrl == KeycloakUrlNow(p, s.w.home) then 0 else -4)
  {
    hide Pays, KeycloakPart, BuildRoute, FindUrl, AppPart, Finish, WellFormed, Proceeds, InPlace, AllThere;
    hide KeycloakUrlNow, AppUrlNow, RouteWanted;
    var s6 := KeycloakPart(o, p, s, keycloakUrl);
    KeycloakPartPays(o, p, s, keycloakUrl);
    KeycloakPartProceeds(o, p, s, keycloakUrl);
    var (s7, route) := BuildRoute(o, p, s6, p.appRoute);
    BuildPays(o, p, s6, p.appRoute);
    var (s8, url) := FindUrl(o, p, s7, p.appService, p.appAccess, route);
    AppUrlPays(o, p, s7, route);
    AppFormed(p);
    FindUrlProceeds(o, p, s7, p.appService, p.appAccess, p.appRoute, route);
    HaltedForGood(p, s7, s8);
    var s9 := AppPart(o, p, s8, keycloakUrl, url);
    AppPartPays(o, p, s8, keycloakUrl, url);
    AppPartProceeds(o, p, s8, keycloakUrl, url);
    var t := Finish(o, p, s9);
    FinishPays(o, p, s9);
    var current := keycloakUrl == KeycloakUrlNow(p, s.w.home);
    var a := if current then 0 else -2;
    PaysOn(p, s, s6, s7, a, 0);
    if s8.halt == None {
      var appCurrent := url == AppUrlNow(p, s8.w.home);
      var b := if appCurrent then 0 else 4;
      var c := if current && appCurrent then 0 else -2;
      assert Pays(p, s7, s8, b);
      PaysOn(p, s, s7, s8, a, b);
      PaysOn(p, s, s8, s9, a + b, c);
      PaysOn(p, s, s9, t, a + b + c, 0);
      PaysLess(p, s, t, a + b + c, if current then 0 else -4);
    } else {
      PaysOn(p, s, s7, s8, a, 0);
      PaysOn(p, s, s8, s9, a, 0);
      PaysOn(p, s, s9, t, a, 0);
      PaysLess(p, s, t, a, if current then 0 else -4);
    }
  }

  lemma PaysLess(p: Plan, s: Run, t: Run, a: int, b: int)
    requires Pays(p, s, t, a) && b <= a
    ensures Pays(p, s, t, b)
  {
    hide Potential;
  }

  /** Within one run, the creates and deletes that take effect number at most
      what the potential falls by, for every behaviour of the API server. */
  lemma ExecutePays(o: Oracle, p: Plan, s: Run)
    requires WellFormed(p) && InPlace(p, s) && s.halt == None
    ensures Pays(p, s, Execute(o, p, s), 0)
  {
    hide Pays, TrustPart, SecretsPart, PostgresPart, BuildRoute, KeycloakUrl, KeycloakPart, FindUrl, AppPart, Finish;
    hide WellFormed, Proceeds, AllThere, RouteWanted, KeycloakUrlNow;
    var s0 := Prologue(o, p, s);
    PrologueKeeps(o, p, s);
    KeptPays(p, s, s0);
    FirstHalfPays(o, p, s0);
    var s3 := PostgresPart(o, p, SecretsPart(o, p, TrustPart(o, p, s0)));
    var (s4, route) := BuildRoute(o, p, s3, p.keycloakRoute);
    PaysOn(p, s, s0, s4, 0, 0);
    var (s5, url) := KeycloakUrl(o, p, s4, route);
    KeycloakUrlPays(o, p, s4, route);
    KeycloakUrlProceeds(o, p, s4, route);
    var t := Execute(o, p, s);
    if s5.halt == None {
      SecondHalfPays(o, p, s5, url);
      if url == KeycloakUrlNow(p, s5.w.home) {
        PaysOn(p, s, s4, s5, 0, 0);
        PaysOn(p, s, s5, t, 0, 0);
      } else {
        PaysOn(p, s, s4, s5, 0, 4);
        PaysOn(p, s, s5, t, 4, -4);
      }
    } else {
      PaysOn(p, s, s4, s5, 0, 0);
      HaltedRun(o, p, s);
      KeptPays(p, s5, t);
      PaysOn(p, s, s5, t, 0, 0);
    }
  }

  /* Once Keycloak's URL could not be had, the run is over. */
  lemma HaltedRun(o: Oracle, p: Plan, s: Run)
    ensures var s0 := Prologue(o, p, s);
      var s3 := PostgresPart(o, p, SecretsPart(o, p, TrustPart(o, p, s0)));
      var (s4, route) := BuildRoute(o, p, s3, p.keycloakRoute);
      var (s5, url) := KeycloakUrl(o, p, s4, route);
      s5.halt.Some? ==> Execute(o, p, s) == s5
  {
    hide Prologue, TrustPart, SecretsPart, PostgresPart, KeycloakUrl, KeycloakUrlNow, TlsFromSecret;
  }
}
