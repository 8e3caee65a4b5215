/**
  Bounded rounds: when calls succeed and URLs are given to services and routes
  between runs, three runs bring any state of the cluster to what is wanted.
 */
module Rounds {
  import opened Wrappers
  import opened Resources
  import opened HorreumApi
  import opened Matching
  import opened Worlds
  import opened Plans
  import opened Steps
  import opened Effects
  import opened Builders
  import opened Reconciling
  import opened Potentials
  import opened Safety
  import opened Convergence
  import opened Histories
  import opened Readiness
  import opened Fixpoint
  import opened WorkingRuns
  import Names

  // Between runs

  /* Once the service, and the route if it is by route, are in place, they have
     been given their URL; what is yet to be replaced need not have any. */
  predicate UrlGiven(p: Plan, h: map<Key, Obj>, service: Manifest, access: Access, task: RouteTask) {
    EdgeCost(p, h, service, access, task) == 0 ==> UrlNow(p, h, service.key, access, task.key) != ""
  }

  /* The URLs are given, and what Keycloak's pod is made from parses. */
  ghost predicate UrlsGiven(p: Plan, h: map<Key, Obj>) {
    && UrlGiven(p, h, p.appService, p.appAccess, p.appRoute)
    && (p.keycloakUri == "" ==> UrlGiven(p, h, p.keycloakService, p.keycloakAccess, p.keycloakRoute))
    && Parses(p, h)
  }

  lemma ViableDrifts(p: Plan, h: map<Key, Obj>, h': map<Key, Obj>)
    requires Benign(p, h, h') && Settleable(p, h)
    ensures Settleable(p, h') && (Parses(p, h') ==> Viable(p, h'))
  {
    hide Drifts, RouteWanted, Benign, ReadAuthority, Footprint, Parses;
    RouteCostDrifts(p, h, h', p.keycloakRoute);
    RouteCostDrifts(p, h, h', p.appRoute);
    AuthorityDrifts(p, h, h');
  }

  lemma AuthorityDrifts(p: Plan, h: map<Key, Obj>, h': map<Key, Obj>)
    requires Benign(p, h, h') && AuthorityUsable(p, h)
    ensures AuthorityUsable(p, h')
  {
    hide Footprint;
    FootprintHas(p);
    assert p.caKey in CertKeys(p) && p.caKey in Watched(p);
  }

  lemma DoneDrifts(p: Plan, h: map<Key, Obj>, h': map<Key, Obj>)
    requires WellFormed(p) && Benign(p, h, h')
    ensures FirstDone(p, h) ==> FirstDone(p, h')
    ensures SecondDone(p, h) ==> SecondDone(p, h')
  {
    hide TrustCost, SecretsCost, PostgresCost, KeycloakEdge, KeycloakPodCost, AppEdge, Benign, WellFormed;
    FlatDrifts(p, h, h');
    PostgresDrifts(p, h, h');
    EdgeDrifts(p, h, h');
    PodsDrift(p, h, h');
  }

  lemma FirstIsKnown(o: Oracle, p: Plan, h: map<Key, Obj>)
    requires UrlsGiven(p, h)
    ensures FirstDone(p, h) ==> KeycloakAtOnce(o, p, h)
    ensures SecondDone(p, h) ==> AppAtOnce(o, p, h)
  {
    hide EdgeCost, UrlNow, KeycloakPodCost, TrustCost, SecretsCost, PostgresCost, Parses;
  }

  /* The next run starts where this one ended, with its URLs given. */
  ghost predicate Follows(o: Oracle, env: Env, cr: Horreum, a: World, b: World) {
    Continues(PlanOf(env, cr), Reconcile(o, env, a).w, b) && UrlsGiven(PlanOf(env, cr), b.home)
  }

  lemma GivenParses(p: Plan, h: map<Key, Obj>)
    requires UrlsGiven(p, h)
    ensures Parses(p, h)
  {
    hide UrlGiven, Parses;
  }

  lemma NextRound(o: Oracle, o': Oracle, env: Env, cr: Horreum, a: World, b: World)
    requires Sound(a) && SameResource(Some(cr), a.cr) && Works(o) && Viable(PlanOf(env, cr), a.home)
    requires Follows(o, env, cr, a, b)
    ensures var p := PlanOf(env, cr);
      && Sound(b) && SameResource(Some(cr), b.cr) && Viable(p, b.home)
      && FirstDone(p, b.home) && KeycloakAtOnce(o', p, b.home)
      && (KeycloakAtOnce(o, p, a.home) ==> SecondDone(p, b.home) && AppAtOnce(o', p, b.home))
  {
    hide Reconcile, Viable, PlanOf, UrlsGiven, Benign, KeycloakAtOnce, AppAtOnce, FirstDone, SecondDone, Potential;
    hide Parses, Settleable;
    var p := PlanOf(env, cr);
    Names.PlanIsWellFormed(env, cr);
    RunAdvances(o, env, cr, a);
    var h := Reconcile(o, env, a).w.home;
    GivenParses(p, b.home);
    ViableDrifts(p, h, b.home);
    DoneDrifts(p, h, b.home);
    FirstIsKnown(o', p, b.home);
  }

  /** Bounded rounds: from any state of the cluster, if calls succeed and URLs
      are given between the runs, three runs leave nothing to create or delete. */
  lemma ThreeRounds(o1: Oracle, o2: Oracle, o3: Oracle, env: Env, cr: Horreum, w1: World, w2: World, w3: World)
    requires Sound(w1) && SameResource(Some(cr), w1.cr) && Viable(PlanOf(env, cr), w1.home)
    requires Works(o1) && Works(o2) && Works(o3)
    requires Follows(o1, env, cr, w1, w2) && Follows(o2, env, cr, w2, w3)
    ensures Potential(PlanOf(env, cr), Reconcile(o3, env, w3).w.home) == 0
  {
    hide Reconcile, Viable, PlanOf, KeycloakAtOnce, AppAtOnce, FirstDone, SecondDone, Potential, Follows;
    NextRound(o1, o2, env, cr, w1, w2);
    NextRound(o2, o3, env, cr, w2, w3);
    RunAdvances(o3, env, cr, w3);
  }

  /** With node ports that are allocated together with their services, one run
      is enough. */
  lemma OneRound(o: Oracle, env: Env, cr: Horreum, w: World)
    requires Sound(w) && SameResource(Some(cr), w.cr) && Works(o) && Viable(PlanOf(env, cr), w.home)
    requires forall n: nat :: o.nodePort(n) != 0
    requires var p := PlanOf(env, cr);
      && UrlsGiven(p, w.home) && p.appAccess.ByNodePort? && (p.keycloakUri == "" ==> p.keycloakAccess.ByNodePort?)
    ensures Potential(PlanOf(env, cr), Reconcile(o, env, w).w.home) == 0
  {
    hide Reconcile, Viable, PlanOf, Potential, Known;
    var p := PlanOf(env, cr);
    Names.PlanIsWellFormed(env, cr);
    PortsArePrompt(o, p, w.home);
    RunAdvances(o, env, cr, w);
  }

  lemma PortsArePrompt(o: Oracle, p: Plan, h: map<Key, Obj>)
    requires WellFormed(p) && UrlsGiven(p, h) && (forall n: nat :: o.nodePort(n) != 0)
    requires p.appAccess.ByNodePort? && (p.keycloakUri == "" ==> p.keycloakAccess.ByNodePort?)
    ensures KeycloakAtOnce(o, p, h) && AppAtOnce(o, p, h)
  {
    hide Known, Matches, SecretsFormed, MapsFormed, PodsFormed;
  }

  // Two rounds are not enough

  /* A route that has just been created has no URL, so the run waits for it. */
  lemma NewRouteWaits(o: Oracle, p: Plan, s: Run, service: Manifest, route: Manifest)
    requires WellFormed(p) && InPlace(p, s) && s.halt == None
    requires route.RouteM? && route.key in Footprint(p) && route.key.kind == RouteKind && route.key !in s.w.home
    ensures RoutedUrl(o, p, s, service, Some(route)).0.halt.Some?
  {
    hide EnsureSame, Footprint, WellFormed, Proceeds, Settled, Quit;
    PlainProper(p, s, route, SameRoute);
    EnsureSameSettles(o, p, s, route, SameRoute);
    QuitKeeps(o, EnsureSame(o, p, s, route, SameRoute).0, Pending, WaitingForUrl(service.key), Requeued);
  }

  lemma MissingRouteWaits(
    o: Oracle, p: Plan, s: Run, service: Manifest, task: RouteTask, route: Option<Manifest>)
    requires WellFormed(p) && InPlace(p, s) && route.Some? && IsRouteOf(task, route)
    requires OwnManifest(service, ServiceKind, p.owner.ns) && service.key in Footprint(p)
    requires task.key in Footprint(p) && task.key.kind == RouteKind && task.key !in s.w.home && s.halt == None
    ensures FindUrl(o, p, s, service, ByRoute, route).0.halt.Some?
  {
    hide EnsureSame, Footprint, WellFormed, RoutedUrl, Proceeds, Settled;
    var u := EnsureSame(o, p, s, service, SameService).0;
    PlainProceeds(o, p, s, service, SameService);
    SettledPrice(s, u, service, SameService);
    if u.halt == None {
      NewRouteWaits(o, p, u, service, route.value);
    }
  }

  /* What a run leaves of an application that has neither route nor pod. */
  predicate NoApp(p: Plan, h: map<Key, Obj>) {
    p.appRoute.key !in h && p.appPodKey !in h
  }

  lemma StagesTouch(o: Oracle, p: Plan, s: Run)
    requires WellFormed(p) && InPlace(p, s) && Works(o) && s.halt == None && Viable(p, s.w.home)
    ensures var g := StagesOf(o, p, s);
      && Touched(s.w.home, g.s5.w.home, EarlyKeys(p) + KeycloakKeys(p))
      && (g.s5.halt == None ==>
            g.s6.halt == None && Touched(s.w.home, g.s6.w.home, EarlyKeys(p) + KeycloakKeys(p) + KeycloakKeys(p)))
  {
    hide WellFormed, Works, Proceeds, Buildable, Obtainable, Built, StagesOf, AllThere, AllHoused, InPlace;
    hide Staged, EarlyKeys;
    hide PostgresCost, EdgeCost, KeycloakUrl, KeycloakPart, BuildRoute, FindUrl, AppPart, Finish, Cost;
    hide KeycloakEdge, AtOnce;
    hide TrustPart, SecretsPart, PostgresPart;
    var g := StagesOf(o, p, s);
    FirstHalfWorks(o, p, s);
    StagesHold(o, p, s);
    StageSteps(o, p, s);
    HousedStages(p, g);
    KeycloakUrlWorks(o, p, g.s4, g.keycloakRoute);
    GoesOnParses(o, p, s);
    TouchedOn(s.w.home, g.s4.w.home, g.s5.w.home, EarlyKeys(p), KeycloakKeys(p));
    if g.s5.halt == None {
      KeycloakPartWorks(o, p, g.s5, g.keycloakUrl);
      TouchedOn(s.w.home, g.s5.w.home, g.s6.w.home, EarlyKeys(p) + KeycloakKeys(p), KeycloakKeys(p));
    }
  }

  /* Before the application has a route, no run creates its pod. */
  lemma NoRouteNoPod(o: Oracle, p: Plan, s: Run)
    requires WellFormed(p) && InPlace(p, s) && Works(o) && s.halt == None && Viable(p, s.w.home)
    requires p.appAccess.ByRoute? && NoApp(p, s.w.home)
    ensures p.appPodKey !in Execute(o, p, s).w.home
    ensures p.keycloakUri == "" && p.keycloakAccess.ByRoute? && p.keycloakRoute.key !in s.w.home ==>
      NoApp(p, Execute(o, p, s).w.home)
  {
    hide WellFormed, Works, Proceeds, Buildable, Obtainable, StagesOf, Execute, AllThere, AllHoused, InPlace;
    hide Staged, EarlyKeys, KeycloakKeys;
    hide KeycloakUrl, KeycloakPart, BuildRoute, FindUrl, AppPart, Finish, EdgeCost, UrlNow, AtOnce;
    hide RouteWanted, Footprint;
    hide TrustPart, SecretsPart, PostgresPart;
    var g := StagesOf(o, p, s);
    StagesTouch(o, p, s);
    StagesHold(o, p, s);
    StageSteps(o, p, s);
    AppKeysAre(p);
    AppFormed(p);
    RoutedOnlyWithRoutes(p);
    if g.s5.halt.Some? {
      HaltedStages(o, p, s);
    } else {
      HousedStages(p, g);
      FirstStage(o, p, s);
      PrologueKeeps(o, p, s);
      FirstHalfWorks(o, p, s);
      BuildableToHere(p, g, p.appRoute);
      AnswersWhenWorks(o);
      BuildRouteRests(o, p, g.s6, p.appRoute);
      BuildPays(o, p, g.s6, p.appRoute);
      BuildRouteProceeds(o, p, g.s6, p.appRoute);
      FindUrlWorks(o, p, g.s7, p.appService, p.appAccess, p.appRoute, g.appRoute);
      MissingRouteWaits(o, p, g.s7, p.appService, p.appRoute, g.appRoute);
      HaltedEnd(o, p, g.s8, g.keycloakUrl, g.url);
      KeycloakGoesOn(o, p, s);
    }
  }

  lemma KeycloakGoesOn(o: Oracle, p: Plan, s: Run)
    requires WellFormed(p) && InPlace(p, s) && Works(o) && s.halt == None && Viable(p, s.w.home)
    requires StagesOf(o, p, s).s5.halt == None
    ensures !(p.keycloakUri == "" && p.keycloakAccess.ByRoute? && p.keycloakRoute.key !in s.w.home)
  {
    hide WellFormed, Works, Proceeds, Buildable, Obtainable, StagesOf, AllThere, InPlace, Staged, EarlyKeys;
    hide RouteWanted, Footprint;
    hide FindUrl, PostgresCost, Prologue, BuildRoute, TrustPart, SecretsPart, PostgresPart;
    var g := StagesOf(o, p, s);
    FirstHalfWorks(o, p, s);
    StageSteps(o, p, s);
    AppFormed(p);
    AppKeysAre(p);
    RoutedWithRoutes(p);
    if p.keycloakUri == "" && p.keycloakAccess.ByRoute? && p.keycloakRoute.key !in s.w.home {
      MissingRouteWaits(o, p, g.s4, p.keycloakService, p.keycloakRoute, g.keycloakRoute);
    }
  }

  lemma RoutedWithRoutes(p: Plan)
    requires WellFormed(p)
    ensures p.keycloakAccess.ByRoute? ==> p.routes
  {
  }

  /* What happens between runs does not create the operator's objects. */
  lemma AbsentDrifts(p: Plan, h: map<Key, Obj>, h': map<Key, Obj>)
    requires Benign(p, h, h') && NoApp(p, h)
    ensures NoApp(p, h')
  {
    hide Drifts, Footprint;
    FootprintHas(p);
    assert p.appRoute.key in Watched(p) && p.appPodKey in Watched(p);
  }

  /** The bound is tight: with routes for both components and none of them there,
      two rounds never do, even when every call succeeds and every URL is given. */
  lemma TwoRoundsAreNotEnough(o1: Oracle, o2: Oracle, env: Env, cr: Horreum, w1: World, w2: World)
    requires Sound(w1) && SameResource(Some(cr), w1.cr) && Viable(PlanOf(env, cr), w1.home)
    requires Works(o1) && Works(o2) && Follows(o1, env, cr, w1, w2)
    requires var p := PlanOf(env, cr);
      && p.keycloakUri == "" && p.keycloakAccess.ByRoute? && p.appAccess.ByRoute?
      && p.keycloakRoute.key !in w1.home && NoApp(p, w1.home)
    ensures Potential(PlanOf(env, cr), Reconcile(o2, env, w2).w.home) > 0
  {
    hide Execute, Viable, PlanFor, WellFormed, UrlsGiven, Benign, NoApp, KeycloakAtOnce, AppAtOnce, FirstDone;
    hide SecondDone;
    hide Potential;
    var p := PlanOf(env, cr);
    Names.PlanIsWellFormed(env, cr);
    NextRound(o1, o2, env, cr, w1, w2);
    assert PlanOf(env, w1.cr.value) == p && PlanOf(env, w2.cr.value) == p;
    Names.PlanOwner(env, w1.cr.value);
    NoRouteNoPod(o1, p, Run(Tick(o1, w1), w1.cr.value.status, [], None));
    AbsentDrifts(p, Reconcile(o1, env, w1).w.home, w2.home);
    NoRouteNoPod(o2, p, Run(Tick(o2, w2), w2.cr.value.status, [], None));
    NoPodCosts(p, Reconcile(o2, env, w2).w.home);
  }

  lemma NoPodCosts(p: Plan, h: map<Key, Obj>)
    requires WellFormed(p) && p.appPodKey !in h
    ensures Potential(p, h) > 0
  {
    hide TrustCost, SecretsCost, PostgresCost, KeycloakEdge, KeycloakPodCost, AppEdge, UrlNow, Matches;
    AppPodKeys(p, KeycloakUrlNow(p, h), AppUrlNow(p, h));
  }

  // From zero potential to Ready

  /* What the operator cannot bring about: usable secrets, pods that are ready
     and routes that are admitted. */
  predicate Healthy(p: Plan, h: map<Key, Obj>) {
    && SecretsFine(p, h)
    && Sane(h, p.appPodKey, SamePod)
    && (p.postgres ==> Sane(h, p.postgresPod.key, SamePod))
    && (p.keycloakUri == "" ==> Sane(h, p.keycloakPodKey, SamePod))
    && (p.appAccess.ByRoute? ==> Sane(h, p.appRoute.key, SameRoute))
    && (p.keycloakUri == "" && p.keycloakAccess.ByRoute? ==> Sane(h, p.keycloakRoute.key, SameRoute))
  }

  predicate Sane(h: map<Key, Obj>, k: Key, mode: Mode) {
    k in h && CheckProblem(mode, k, h[k]) == None
  }

  lemma CheapIsFine(h: map<Key, Obj>, want: Manifest, mode: Mode)
    ensures Fine(h, want, mode) <==> Cost(h, want, mode) == 0 && Sane(h, want.key, mode)
    ensures mode == SameData || mode == SameService ==> (Fine(h, want, mode) <==> Cost(h, want, mode) == 0)
  {
    hide Matches;
  }

  lemma TrustIsFine(p: Plan, h: map<Key, Obj>)
    ensures TrustFine(p, h) <==> TrustCost(p, h) == 0 && AuthorityUsable(p, h)
  {
    hide ReadAuthority;
    assert p.caKey in CertKeys(p) && p.appCert.key in CertKeys(p) && p.keycloakCert.key in CertKeys(p);
  }

  lemma PostgresIsFine(p: Plan, h: map<Key, Obj>)
    ensures PostgresFine(p, h) <==> PostgresCost(p, h) == 0 && (p.postgres ==> Sane(h, p.postgresPod.key, SamePod))
  {
    hide Matches, Fine, Cost, Sane;
    CheapIsFine(h, p.postgresMap, SameData);
    CheapIsFine(h, p.postgresPod, SamePod);
    CheapIsFine(h, p.postgresService, SameService);
  }

  lemma EdgeIsFine(p: Plan, h: map<Key, Obj>, service: Manifest, access: Access, task: RouteTask)
    requires Served(access)
    ensures EdgeFine(p, h, service, access, task) <==>
      EdgeCost(p, h, service, access, task) == 0 && UrlNow(p, h, service.key, access, task.key) != "" &&
      (access.ByRoute? ==> Sane(h, task.key, SameRoute))
  {
    hide Matches, Fine, Cost, Sane, UrlNow, RouteWanted;
    CheapIsFine(h, service, SameService);
    RouteWantedKey(p, h, task);
    if RouteWanted(p, task, h).Some? { CheapIsFine(h, RouteWanted(p, task, h).value, SameRoute); }
  }

  lemma KeycloakIsFine(p: Plan, h: map<Key, Obj>)
    requires WellFormed(p) && Viable(p, h) && KeycloakUrlNow(p, h) != ""
    ensures KeycloakFine(p, h) <==>
      KeycloakEdge(p, h) == 0 && KeycloakPodCost(p, h) == 0 &&
      (p.keycloakUri == "" ==>
         Sane(h, p.keycloakPodKey, SamePod) && (p.keycloakAccess.ByRoute? ==> Sane(h, p.keycloakRoute.key, SameRoute)))
  {
    hide WellFormed, Fine, Cost, Sane, UrlNow, EdgeCost, EdgeFine, Buildable, AuthorityUsable;
    var url := KeycloakUrlNow(p, h);
    NowParses(p, h);
    AppPodKeys(p, url, "");
    CheapIsFine(h, p.keycloakPod(url).value, SamePod);
    if p.keycloakUri == "" { EdgeIsFine(p, h, p.keycloakService, p.keycloakAccess, p.keycloakRoute); }
  }

  lemma AppIsFine(p: Plan, h: map<Key, Obj>)
    requires WellFormed(p) && Served(p.appAccess) && KeycloakUrlNow(p, h) != "" && AppUrlNow(p, h) != ""
    ensures AppFine(p, h) <==>
      AppEdge(p, h) == 0 && AppPodCost(p, h) == 0 &&
      Sane(h, p.appPodKey, SamePod) && (p.appAccess.ByRoute? ==> Sane(h, p.appRoute.key, SameRoute))
  {
    hide WellFormed, Fine, Cost, Sane, UrlNow, EdgeCost, EdgeFine, KeycloakUrlNow;
    AppPodKeys(p, KeycloakUrlNow(p, h), AppUrlNow(p, h));
    CheapIsFine(h, p.appPod(KeycloakUrlNow(p, h), AppUrlNow(p, h)), SamePod);
    EdgeIsFine(p, h, p.appService, p.appAccess, p.appRoute);
  }

  /** Everything is as wanted if and only if there is nothing to create or
      delete and nothing is ill: the potential measures the distance to Ready. */
  lemma WantedIffZero(p: Plan, h: map<Key, Obj>)
    requires WellFormed(p) && Viable(p, h) && KeycloakUrlNow(p, h) != "" && AppUrlNow(p, h) != ""
    ensures AsWanted(p, h) <==> Potential(p, h) == 0 && Healthy(p, h)
  {
    hide WellFormed, TrustFine, PostgresFine, KeycloakFine, AppFine, SecretFine, Sane, KeycloakUrlNow;
    hide AppUrlNow, Buildable;
    hide TrustCost, PostgresCost, KeycloakEdge, KeycloakPodCost, AppEdge, AppPodCost;
    TrustIsFine(p, h);
    PostgresIsFine(p, h);
    KeycloakIsFine(p, h);
    AppIsFine(p, h);
    SecretsAreThere(p, h);
    if Potential(p, h) == 0 {
      BuildableAtZero(p, h, p.keycloakRoute);
      BuildableAtZero(p, h, p.appRoute);
    }
  }

  lemma BuildableAtZero(p: Plan, h: map<Key, Obj>, task: RouteTask)
    requires SecretsCost(p, h) == 0 && Obtainable(p, h, task)
    ensures Buildable(p, h, task)
  {
    hide RouteFor, TlsFromSecret;
  }

  lemma SecretsAreThere(p: Plan, h: map<Key, Obj>)
    ensures SecretsFine(p, h) ==> SecretsCost(p, h) == 0
  {
    hide SecretProblem;
  }

  /** After three rounds the resource becomes Ready as soon as its pods are
      ready and its routes admitted, and the run that says so changes nothing. */
  lemma ReadyAfterThreeRounds(
    o1: Oracle, o2: Oracle, o3: Oracle, o4: Oracle, env: Env, cr: Horreum, w1: World, w2: World, w3: World, w4: World)
    requires Sound(w1) && SameResource(Some(cr), w1.cr) && Viable(PlanOf(env, cr), w1.home)
    requires Works(o1) && Works(o2) && Works(o3) && Answers(o4)
    requires Follows(o1, env, cr, w1, w2) && Follows(o2, env, cr, w2, w3) && Follows(o3, env, cr, w3, w4)
    requires Healthy(PlanOf(env, cr), w4.home)
    ensures var t := Reconcile(o4, env, w4);
      && t.halt == Some(Finished) && t.st.phase == Ready && t.w.home == w4.home && t.w.log == w4.log
      && t.w.cr == Some(w4.cr.value.(status := t.st))
  {
    hide Execute, Viable, PlanFor, Potential, Follows, Healthy, AsWanted, KeycloakUrlNow, AppUrlNow, WellFormed;
    hide KeycloakAtOnce, AppAtOnce, FirstDone, SecondDone;
    var p := PlanOf(env, cr);
    Names.PlanIsWellFormed(env, cr);
    NextRound(o1, o2, env, cr, w1, w2);
    NextRound(o2, o3, env, cr, w2, w3);
    RunAdvances(o3, env, cr, w3);
    NextRound(o3, o4, env, cr, w3, w4);
    ZeroDrifts(o3, env, cr, w3, w4);
    UrlsAtZero(o4, p, w4.home);
    WantedIffZero(p, w4.home);
    assert PlanOf(env, w4.cr.value) == p;
    Names.PlanOwner(env, w4.cr.value);
    WantedRunRests(o4, p, Run(Tick(o4, w4), w4.cr.value.status, [], None));
  }

  lemma ZeroDrifts(o: Oracle, env: Env, cr: Horreum, a: World, b: World)
    requires Potential(PlanOf(env, cr), Reconcile(o, env, a).w.home) == 0 && Follows(o, env, cr, a, b)
    ensures Potential(PlanOf(env, cr), b.home) == 0
  {
    hide Reconcile, PlanOf, Potential, UrlsGiven;
    Names.PlanIsWellFormed(env, cr);
    DriftNeverRaises(PlanOf(env, cr), Reconcile(o, env, a).w.home, b.home);
  }

  lemma UrlsAtZero(o: Oracle, p: Plan, h: map<Key, Obj>)
    requires Potential(p, h) == 0
    ensures KeycloakUrlNow(p, h) != "" && AppUrlNow(p, h) != ""
  {
    hide TrustCost, SecretsCost, PostgresCost, KeycloakEdge, AppEdge, Cost, KeycloakPodCost, KeycloakUrlNow, AppUrlNow;
  }

  /* The objects whose presence the resource decides. */
  function Managed(p: Plan): set<Key> {
    SecretKeys(p) + {p.trustKey, p.upload.key, p.appService.key, p.appPodKey} +
    {p.postgresPod.key, p.postgresService.key, p.keycloakService.key, p.keycloakPodKey} +
    (if p.routes then {} else CertKeys(p)) +
    (if p.postgres then {p.postgresMap.key} else {}) +
    (if p.appAccess.ByRoute? then {p.appRoute.key} else {}) +
    (if p.routes && (p.keycloakUri != "" || p.keycloakAccess.ByRoute?) then {p.keycloakRoute.key} else {})
  }

  /* Of the managed objects, those the resource does not ask for. */
  function Unwanted(p: Plan): set<Key> {
    (if p.postgres then {} else {p.postgresPod.key, p.postgresService.key}) +
    (if p.keycloakUri == "" then {} else {p.keycloakService.key, p.keycloakPodKey, p.keycloakRoute.key})
  }

  lemma EdgeKeys(p: Plan, h: map<Key, Obj>, service: Manifest, access: Access, task: RouteTask)
    requires EdgeCost(p, h, service, access, task) == 0
    ensures service.key in h && (access.ByRoute? ==> task.key in h)
  {
    hide Matches;
    RouteWantedKey(p, h, task);
  }

  lemma MapsAtZero(p: Plan, h: map<Key, Obj>)
    requires Potential(p, h) == 0
    ensures SecretKeys(p) <= h.Keys && p.trustKey in h && p.upload.key in h
    ensures !p.routes ==> CertKeys(p) <= h.Keys
  {
    hide PostgresCost, KeycloakEdge, KeycloakPodCost, AppEdge, AppPodCost;
  }

  lemma PostgresAtZero(p: Plan, h: map<Key, Obj>)
    requires Potential(p, h) == 0
    ensures p.postgres ==> p.postgresMap.key in h && p.postgresPod.key in h && p.postgresService.key in h
    ensures !p.postgres ==> p.postgresPod.key !in h && p.postgresService.key !in h
  {
    hide TrustCost, SecretsCost, KeycloakEdge, KeycloakPodCost, AppEdge, AppPodCost, Matches;
  }

  lemma WorkloadsAtZero(p: Plan, h: map<Key, Obj>)
    requires WellFormed(p) && Potential(p, h) == 0
    ensures p.appService.key in h && p.appPodKey in h && (p.appAccess.ByRoute? ==> p.appRoute.key in h)
    ensures p.keycloakUri == "" ==>
      p.keycloakService.key in h && p.keycloakPodKey in h && (p.keycloakAccess.ByRoute? ==> p.keycloakRoute.key in h)
    ensures p.keycloakUri != "" ==>
      p.keycloakService.key !in h && p.keycloakPodKey !in h && (p.routes ==> p.keycloakRoute.key !in h)
  {
    hide EdgeCost, Matches, UrlNow, SecretsFormed, MapsFormed, ServicesFormed, RoutesFormed, TrustCost;
    hide SecretsCost, PostgresCost;
    var u, v := KeycloakUrlNow(p, h), AppUrlNow(p, h);
    AppPodKeys(p, u, v);
    EdgeKeys(p, h, p.appService, p.appAccess, p.appRoute);
    if p.keycloakUri == "" { EdgeKeys(p, h, p.keycloakService, p.keycloakAccess, p.keycloakRoute); }
  }

  lemma UnwantedKinds(p: Plan)
    requires WellFormed(p)
    ensures Unwanted(p) !! SecretKeys(p) + CertKeys(p) + {p.trustKey, p.upload.key, p.postgresMap.key}
    ensures Unwanted(p) !! {p.appService.key, p.appPodKey, p.appRoute.key}
    ensures p.postgres ==> Unwanted(p) !! {p.postgresPod.key, p.postgresService.key}
    ensures p.keycloakUri == "" ==> Unwanted(p) !! {p.keycloakPodKey, p.keycloakService.key, p.keycloakRoute.key}
  {
    CertKinds(p);
    SecretKinds(p);
  }

  /** At zero potential it is settled which of the managed objects exist. */
  lemma KeysAtZero(p: Plan, h: map<Key, Obj>, k: Key)
    requires WellFormed(p) && Potential(p, h) == 0 && k in Managed(p)
    ensures k in h <==> k !in Unwanted(p)
  {
    hide Potential, WellFormed, SecretKeys, CertKeys;
    MapsAtZero(p, h);
    PostgresAtZero(p, h);
    WorkloadsAtZero(p, h);
    UnwantedKinds(p);
  }

  /** The round trip: whatever the resource was edited to and back, and whatever
      failed meanwhile, three rounds with the original resource bring back
      everything it asks for, and all secrets are those of the beginning. */
  lemma EditsAreUndone(
    os: seq<Oracle>, envs: seq<Env>, ws: seq<World>,
    o1: Oracle, o2: Oracle, o3: Oracle, env: Env, cr: Horreum, w2: World, w3: World)
    requires |os| == |envs| && |ws| == |os| + 1 && Sound(ws[0])
    requires forall i | 0 <= i < |os| :: LeavesSecrets(Reconcile(os[i], envs[i], ws[i]).w, ws[i + 1])
    requires Potential(PlanOf(env, cr), ws[0].home) == 0
    requires var w1 := ws[|os|];
      Sound(w1) && SameResource(Some(cr), w1.cr) && Viable(PlanOf(env, cr), w1.home) &&
      Follows(o1, env, cr, w1, w2) && Follows(o2, env, cr, w2, w3)
    requires Works(o1) && Works(o2) && Works(o3)
    requires SecretsStay(Reconcile(o1, env, ws[|os|]).w.home, w2.home)
    requires SecretsStay(Reconcile(o2, env, w2).w.home, w3.home)
    ensures var t := Reconcile(o3, env, w3).w;
      var p := PlanOf(env, cr);
      && Potential(p, t.home) == 0 && SecretsStay(ws[0].home, t.home)
      && forall k | k in Managed(p) :: k in t.home <==> k in ws[0].home
  {
    hide Reconcile, Viable, PlanOf, Potential, Follows, Works, KeycloakAtOnce, AppAtOnce, FirstDone;
    hide SecondDone, Managed, Unwanted;
    SecretsAreForever(os, envs, ws);
    ThreeRounds(o1, o2, o3, env, cr, ws[|os|], w2, w3);
    NextRound(o1, o2, env, cr, ws[|os|], w2);
    NextRound(o2, o3, env, cr, w2, w3);
    RunKeepsSecrets(o1, env, ws[|os|]);
    RunKeepsSecrets(o2, env, w2);
    RunKeepsSecrets(o3, env, w3);
    var p := PlanOf(env, cr);
    Names.PlanIsWellFormed(env, cr);
    var t := Reconcile(o3, env, w3).w;
    forall k | k in Managed(p) ensures k in t.home <==> k in ws[0].home {
      KeysAtZero(p, t.home, k);
      KeysAtZero(p, ws[0].home, k);
    }
  }
}
