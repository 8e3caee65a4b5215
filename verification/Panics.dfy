/**
  When exactly the operator panics, in terms of the resource and of what is in
  its namespace before the run.
 */
module Panics {
  import opened Wrappers
  import opened Resources
  import opened HorreumApi
  import opened Matching
  import opened Worlds
  import opened Plans
  import opened Steps
  import opened Effects
  import opened Potentials
  import opened Safety
  import opened Convergence
  import opened Readiness
  import opened Fixpoint
  import opened Endings
  import opened Verdicts
  import opened WorkingRuns
  import opened Interference

  // What a run that gets to Keycloak's URL has found

  /* A secret that is not one of the generated ones and was not there does not
     come up in the first parts of a run with routes. */
  predicate NoNewSecret(p: Plan, h: map<Key, Obj>, h': map<Key, Obj>, k: Key) {
    k.kind == SecretKind && k !in SecretKeys(p) && k !in h ==> k !in h'
  }

  lemma SecretStepMakesOwn(o: Oracle, p: Plan, s: Run, task: SecretTask, k: Key)
    requires WellFormed(p) && InPlace(p, s) && task.key in SecretKeys(p)
    ensures var t := SecretStep(o, p, s, task);
      NoNewSecret(p, s.w.home, t.w.home, k) && InPlace(p, t)
  {
    hide EnsureSame, Settled, WellFormed, Footprint, Proceeds, SecretKeys;
    FootprintHas(p);
    var want := SecretManifest(o, s.w.clock, task);
    PlainProceeds(o, p, s, want, HasKeys(NeededKeys(task)));
    SettledPrice(s, SecretStep(o, p, s, task), want, HasKeys(NeededKeys(task)));
  }

  lemma SecretsPartMakesOwn(o: Oracle, p: Plan, s: Run, k: Key)
    requires WellFormed(p) && InPlace(p, s)
    ensures NoNewSecret(p, s.w.home, SecretsPart(o, p, s).w.home, k)
  {
    hide SecretStep, WellFormed, InPlace;
    var s1 := SecretStep(o, p, s, p.dbAdmin);
    var s2 := SecretStep(o, p, s1, p.appUser);
    var s3 := SecretStep(o, p, s2, p.keycloakAdmin);
    var s4 := SecretStep(o, p, s3, p.keycloakDb);
    SecretStepMakesOwn(o, p, s, p.dbAdmin, k);
    SecretStepMakesOwn(o, p, s1, p.appUser, k);
    SecretStepMakesOwn(o, p, s2, p.keycloakAdmin, k);
    SecretStepMakesOwn(o, p, s3, p.keycloakDb, k);
    SecretStepMakesOwn(o, p, s4, p.admin, k);
  }

  lemma TrustPartMakesNone(o: Oracle, p: Plan, s: Run, k: Key)
    requires WellFormed(p) && InPlace(p, s) && p.routes
    ensures NoNewSecret(p, s.w.home, TrustPart(o, p, s).w.home, k)
  {
    hide EnsureSame, Settled, WellFormed, Footprint, Proceeds;
    FootprintHas(p);
    BundleKinds(p);
    if s.halt == None {
      RoutesTrust(o, p, s);
      PlainProceeds(o, p, s, TrustManifest(p), Exists);
      SettledPrice(s, TrustPart(o, p, s), TrustManifest(p), Exists);
    }
  }

  lemma BundleKinds(p: Plan)
    requires WellFormed(p)
    ensures p.trustKey.kind == ConfigMapKind
  {
  }

  lemma PostgresPartMakesNone(o: Oracle, p: Plan, s: Run, k: Key)
    requires WellFormed(p) && InPlace(p, s) && (s.halt == None ==> AllThere(p, s.w.home))
    ensures NoNewSecret(p, s.w.home, PostgresPart(o, p, s).w.home, k)
  {
    hide EnsureSame, EnsureDeleted, Settled, Cleared, WellFormed, Footprint, Proceeds, AllThere;
    FootprintHas(p);
    KindsOfKeys(p);
    PostgresForms(p);
    if p.postgres {
      var s1 := EnsureSame(o, p, s, p.postgresMap, SameData).0;
      var s2 := EnsureSame(o, p, s1, p.postgresPod, SamePod).0;
      var s3 := EnsureSame(o, p, s2, p.postgresService, SameService).0;
      ComparedProceeds(o, p, s, p.postgresMap, SameData);
      SettledPrice(s, s1, p.postgresMap, SameData);
      ThereWhenSettled(s, s1, p.postgresMap, SameData);
      PodProceeds(o, p, s1, p.postgresPod);
      SettledPrice(s1, s2, p.postgresPod, SamePod);
      ComparedProceeds(o, p, s2, p.postgresService, SameService);
      SettledPrice(s2, s3, p.postgresService, SameService);
    } else {
      var s1 := EnsureDeleted(o, s, p.postgresPod.key);
      DeletedProceeds(o, p, s, p.postgresPod.key);
      ClearedPrice(s, s1, p.postgresPod.key);
      DeletedProceeds(o, p, s1, p.postgresService.key);
      ClearedPrice(s1, EnsureDeleted(o, s1, p.postgresService.key), p.postgresService.key);
    }
  }

  lemma PostgresForms(p: Plan)
    requires WellFormed(p)
    ensures p.postgresMap.ConfigMapM? && p.postgresPod.PodM? && p.postgresService.ServiceM?
  {
    hide SecretsFormed, RoutesFormed;
  }

  lemma AuthorityWasUsable(o: Oracle, p: Plan, s: Run)
    requires WellFormed(p) && InPlace(p, s) && s.halt == None && TrustPart(o, p, s).halt == None
    ensures AuthorityUsable(p, s.w.home)
  {
    hide WellFormed, LoadAuthority, CreateIfMissing, Provisioned, Proceeds, CertSecret, ReadAuthority, TrustPart;
    if !p.routes {
      var s0, authority, s1, s2, s3 := TrustSteps(o, p, s);
      LoadAuthorityShape(o, p, s);
    }
  }

  lemma RouteWasObtainable(p: Plan, h: map<Key, Obj>, h': map<Key, Obj>, task: RouteTask)
    requires Buildable(p, h', task) && (p.routes ==> NoNewSecret(p, h, h', TlsKey(p, task)))
    ensures Obtainable(p, h, task)
  {
    hide RouteFor, TlsFromSecret, SecretKeys;
  }

  /** Whatever the API server answers, a run that gets as far as Keycloak's URL
      has found the resource startable. */
  lemma GotThere(o: Oracle, p: Plan, s: Run)
    requires WellFormed(p) && InPlace(p, s) && s.halt == None && StagesOf(o, p, s).s4.halt == None
    ensures Startable(p, s.w.home)
  {
    hide WellFormed, Proceeds, StagesOf, AllThere, InPlace, Obtainable, AuthorityUsable, Buildable, Built, Pays;
    hide TrustPart, SecretsPart, PostgresPart, BuildRoute, Prologue;
    hide KeycloakUrl, KeycloakPart, FindUrl, AppPart, Finish, Execute;
    var g := StagesOf(o, p, s);
    var k := TlsKey(p, p.keycloakRoute);
    StagesHold(o, p, s);
    StageSteps(o, p, s);
    FirstStage(o, p, s);
    HaltedForGood(p, g.s3, g.s4);
    HaltedForGood(p, g.s2, g.s3);
    HaltedForGood(p, g.s1, g.s2);
    HaltedForGood(p, g.s0, g.s1);
    PrologueEnds(o, p, s);
    AuthorityWasUsable(o, p, g.s0);
    if p.routes { TrustPartMakesNone(o, p, g.s0, k); }
    SecretsPartMakesOwn(o, p, g.s1, k);
    PostgresPartMakesNone(o, p, g.s2, k);
    BuiltIsBuildable(o, p, g.s3, p.keycloakRoute);
    RouteWasObtainable(p, g.s0.w.home, g.s3.w.home, p.keycloakRoute);
  }

  lemma BuiltIsBuildable(o: Oracle, p: Plan, s: Run, task: RouteTask)
    requires WellFormed(p) && InPlace(p, s) && BuildRoute(o, p, s, task).0.halt == None
    ensures Buildable(p, s.w.home, task)
  {
    hide WellFormed, BuildRoute, RouteWanted, Pays;
    BuildPays(o, p, s, task);
    Supported(o, p, s, task);
  }

  // A URL for Keycloak that does not parse

  /** For every oracle: when the URLs that are there or may be given parse, no run
      panics over Keycloak's pod. */
  lemma ParsedNeverPanics(o: Oracle, p: Plan, s: Run)
    requires WellFormed(p) && InPlace(p, s) && s.halt == None && Parses(p, s.w.home)
    ensures Execute(o, p, s).halt != Some(Panicked(NilPod))
  {
    hide WellFormed, Proceeds, StagesOf, Staged, AllThere, InPlace, Parses, UrlSource, Built, Pays, Execute;
    hide TrustPart, SecretsPart, PostgresPart, BuildRoute, Prologue, KeycloakUrl, KeycloakPart, FindUrl;
    hide AppPart, Finish;
    var g := StagesOf(o, p, s);
    StagesHold(o, p, s);
    StageSteps(o, p, s);
    FirstStage(o, p, s);
    PanicsAreFew(o, p, s);
    BuildPays(o, p, g.s3, p.keycloakRoute);
    FoundUrl(o, p, g.s4, g.keycloakRoute);
    if g.s5.halt == None {
      StagesFollow(p, g);
      ParsesLater(p, g.s0, g.s4);
      SourceParses(p, g.s4.w.home, g.keycloakUrl);
    }
  }

  lemma ParsesLater(p: Plan, s: Run, t: Run)
    requires Proceeds(p, s, t) && Parses(p, s.w.home)
    ensures Parses(p, t.w.home)
  {
    hide RouteUrl, NodeUrl, Explained, Summed;
    var k := p.keycloakRoute.key;
    if k in t.w.home { RouteIsOldOrBare(p, s.w.home, t.w.log[|s.w.log|..], t.w.home, k); }
  }

  /* Keycloak's URL is settled before the run: it is external, or in place. */
  predicate UrlIsSettled(p: Plan, h: map<Key, Obj>) {
    p.keycloakUri != "" || Known(p, h, p.keycloakService, p.keycloakAccess, p.keycloakRoute)
  }

  /* A working run of a startable resource goes on with that URL. */
  lemma GoesOnWith(o: Oracle, p: Plan, s: Run)
    requires WellFormed(p) && InPlace(p, s) && s.halt == None && Works(o)
    requires Startable(p, s.w.home) && UrlIsSettled(p, s.w.home)
    ensures var g := StagesOf(o, p, s);
      g.s5.halt == None && g.keycloakUrl == KeycloakUrlNow(p, s.w.home)
  {
    hide WellFormed, Works, Proceeds, StagesOf, Staged, AllThere, InPlace, Startable, Built, EdgeCost, UrlNow;
    hide EarlyKeys;
    hide KeycloakUrl, KeycloakPart, FindUrl, AppPart, Finish, Execute, PostgresCost, BuildRoute, Obtainable;
    hide TrustPart, SecretsPart;
    hide PostgresPart;
    var g := StagesOf(o, p, s);
    FirstHalfWorks(o, p, s);
    StagesHold(o, p, s);
    StageSteps(o, p, s);
    if p.keycloakUri == "" {
      var h := s.w.home;
      KnownIsServed(p, h, p.keycloakService, p.keycloakAccess, p.keycloakRoute);
      LateKeysDiffer(p);
      AppKeysAre(p);
      StagesFollow(p, g);
      KnownStays(p, g.s0, g.s4);
    }
    KeycloakUrlWorks(o, p, g.s4, g.keycloakRoute);
  }

  lemma KnownIsServed(p: Plan, h: map<Key, Obj>, service: Manifest, access: Access, task: RouteTask)
    requires Known(p, h, service, access, task)
    ensures Served(access)
  {
    hide EdgeCost;
  }

  /* The early parts of a run leave a known URL as it is. */
  lemma KnownStays(p: Plan, s: Run, t: Run)
    requires WellFormed(p) && Proceeds(p, s, t) && Touched(s.w.home, t.w.home, EarlyKeys(p))
    requires Known(p, s.w.home, p.keycloakService, p.keycloakAccess, p.keycloakRoute)
    ensures Known(p, t.w.home, p.keycloakService, p.keycloakAccess, p.keycloakRoute)
    ensures UrlNow(p, t.w.home, p.keycloakService.key, p.keycloakAccess, p.keycloakRoute.key) ==
      UrlNow(p, s.w.home, p.keycloakService.key, p.keycloakAccess, p.keycloakRoute.key)
  {
    hide WellFormed, Proceeds, EdgeCost, UrlNow, EarlyKeys, Buildable;
    LateKeysDiffer(p);
    AppKeysAre(p);
    if p.keycloakAccess.ByRoute? { CheapIsBuildable(p, s.w.home, p.keycloakService, p.keycloakRoute); }
    EdgeTouched(p, s, t, EarlyKeys(p), p.keycloakService, p.keycloakAccess, p.keycloakRoute);
  }

  /** A working server and an external URL, or one that is in place: the run ends
      in a panic over Keycloak's pod if and only if the resource is startable and
      that URL does not parse. */
  lemma KeycloakPanicsIff(o: Oracle, p: Plan, s: Run)
    requires WellFormed(p) && InPlace(p, s) && s.halt == None && Works(o) && UrlIsSettled(p, s.w.home)
    ensures Execute(o, p, s).halt == Some(Panicked(NilPod)) <==>
      Startable(p, s.w.home) && p.keycloakPod(KeycloakUrlNow(p, s.w.home)) == None
  {
    hide WellFormed, Works, StagesOf, Execute, InPlace, Startable, UrlIsSettled, KeycloakUrlNow, Proceeds, AllThere;
    PanicsAreFew(o, p, s);
    var g := StagesOf(o, p, s);
    if g.s5.halt == None {
      StagesHold(o, p, s);
      HaltedForGood(p, g.s4, g.s5);
      GotThere(o, p, s);
    }
    if Startable(p, s.w.home) { GoesOnWith(o, p, s); }
  }

  // A load balancer

  /* The same server, except that one call is refused. */
  function Failing(o: Oracle, call: nat): Oracle {
    o.(reply := (n: nat) => if n == call then Refused else o.reply(n))
  }

  function BlindFailing(o: Oracle, call: nat): Oracle {
    Failing(o, call).(foreign := (n: nat) => map[])
  }

  /* What happens with the failing server can be seen without other namespaces. */
  lemma SeenBlindly(o: Oracle, call: nat, p: Plan, s: Run)
    requires WellFormed(p) && InPlace(p, s) && s.halt == None
    ensures Blinded(o, BlindFailing(o, call), call)
    ensures Execute(Failing(o, call), p, s).halt == StagesOf(BlindFailing(o, call), p, Mask(s)).end.halt
  {
    hide WellFormed, InPlace, Execute, StagesOf;
    var f, b := Failing(o, call), BlindFailing(o, call);
    SecondHalfIsBlind(f, b, Execute(f, p, s).w.clock, p, s);
    StageSteps(b, p, Mask(s));
  }

  /* The read of the service after it was ensured fails. */
  lemma ReadFails(o: Oracle, p: Plan, s: Run, service: Manifest, route: Option<Manifest>)
    requires WellFormed(p) && InPlace(p, s) && s.halt == None && service.key.ns == p.owner.ns
    requires EnsureSame(o, p, s, service, SameService).0.halt == None
    ensures var call := EnsureSame(o, p, s, service, SameService).0.w.clock;
      FindUrl(BlindFailing(o, call), p, Mask(s), service, ByLoadBalancer, route).0.halt == Some(Panicked(NilService))
  {
    hide WellFormed, EnsureSame;
    var u := EnsureSame(o, p, s, service, SameService).0;
    EnsureSameIsBlind(o, BlindFailing(o, u.w.clock), u.w.clock, p, s, service, SameService);
  }

  lemma KeycloakReadPanics(o: Oracle, p: Plan, s: Run) returns (call: nat)
    requires WellFormed(p) && InPlace(p, s) && s.halt == None && Works(o) && Startable(p, s.w.home)
    requires p.keycloakUri == "" && p.keycloakAccess.ByLoadBalancer?
    ensures Execute(Failing(o, call), p, s).halt == Some(Panicked(NilService))
  {
    hide WellFormed, Works, StagesOf, Execute, InPlace, Startable, EnsureSame, FindUrl, Staged, AllThere, Footprint;
    hide Failing, BlindFailing, TrustPart, SecretsPart, PostgresPart, KeycloakPart, AppPart, Finish;
    hide BuildRoute, Settled, Proceeds;
    hide PostgresCost, EarlyKeys, AuthorityUsable, Built;
    var g := StagesOf(o, p, s);
    FirstHalfWorks(o, p, s);
    AppFormed(p);
    FootprintHas(p);
    ComparedWorks(o, p, g.s4, p.keycloakService, SameService);
    var u := EnsureSame(o, p, g.s4, p.keycloakService, SameService).0;
    call := u.w.clock;
    var b := BlindFailing(o, call);
    SeenBlindly(o, call, p, s);
    FootprintIsLocal(p, p.keycloakService.key);
    EnsureSameIsBlind(o, b, call, p, g.s4, p.keycloakService, SameService) by { HereAt(p, g.s4); }
    EarlyStagesAreBlind(o, b, call, p, s);
    ReadFails(o, p, g.s4, p.keycloakService, g.keycloakRoute);
    StageSteps(b, p, Mask(s));
    UrlOfKeycloak(b, p, Mask(g.s4), g.keycloakRoute);
    HaltedStages(b, p, Mask(s));
  }

  lemma HereAt(p: Plan, s: Run)
    requires InPlace(p, s)
    ensures s.w.ns == p.owner.ns
  {
  }

  lemma UrlOfKeycloak(o: Oracle, p: Plan, s: Run, route: Option<Manifest>)
    requires p.keycloakUri == "" && s.halt == None
    ensures KeycloakUrl(o, p, s, route) == FindUrl(o, p, s, p.keycloakService, p.keycloakAccess, route)
  {
    hide FindUrl;
  }

  /* The run gets to the application's service. */
  ghost predicate ReachesApp(o: Oracle, p: Plan, h: map<Key, Obj>) {
    && Startable(p, h) && Obtainable(p, h, p.appRoute) && Parses(p, h)
    && (p.keycloakUri == "" ==> Served(p.keycloakAccess)) && KeycloakAtOnce(o, p, h)
  }

  lemma GetsToApp(o: Oracle, p: Plan, s: Run)
    requires WellFormed(p) && InPlace(p, s) && s.halt == None && Works(o) && ReachesApp(o, p, s.w.home)
    ensures var g := StagesOf(o, p, s);
      g.s7.halt == None && InPlace(p, g.s7) && AllThere(p, g.s7.w.home)
  {
    hide WellFormed, Works, StagesOf, Execute, InPlace, Startable, FindUrl, AllThere, Parses, Obtainable, Proceeds;
    hide TrustPart, SecretsPart, PostgresPart, KeycloakUrl, KeycloakPart, AppPart, Finish, BuildRoute, AtOnce, Built;
    hide PostgresCost, EarlyKeys, AuthorityUsable, EdgeCost, UrlNow, Buildable, Served, Cost, KeycloakEdge;
    var g := StagesOf(o, p, s);
    FirstHalfWorks(o, p, s);
    StagesHold(o, p, s);
    StageSteps(o, p, s);
    FirstStage(o, p, s);
    HousedStages(p, g);
    StagesFollow(p, g);
    AppKeysAre(p);
    LateKeysDiffer(p);
    if p.keycloakUri == "" {
      AtOnceStays(o, p, g.s0, g.s4, EarlyKeys(p), p.keycloakService, p.keycloakAccess, p.keycloakRoute);
    }
    KeycloakUrlWorks(o, p, g.s4, g.keycloakRoute);
    GoesOnParses(o, p, s);
    KeycloakPartWorks(o, p, g.s5, g.keycloakUrl);
    BuildableToHere(p, g, p.appRoute);
    AnswersWhenWorks(o);
    BuildRouteRests(o, p, g.s6, p.appRoute);
    HousedLate(p, g);
  }

  lemma HousedLate(p: Plan, g: Stages)
    requires AllHoused(p, g) && g.s7.halt == None
    ensures InPlace(p, g.s7) && AllThere(p, g.s7.w.home)
  {
    hide AllThere;
  }

  lemma AppReadPanics(o: Oracle, p: Plan, s: Run) returns (call: nat)
    requires WellFormed(p) && InPlace(p, s) && s.halt == None && Works(o) && ReachesApp(o, p, s.w.home)
    requires p.appAccess.ByLoadBalancer?
    ensures Execute(Failing(o, call), p, s).halt == Some(Panicked(NilService))
  {
    hide WellFormed, Works, StagesOf, Execute, InPlace, ReachesApp, EnsureSame, FindUrl, AllThere, Footprint;
    hide Failing, BlindFailing, TrustPart, SecretsPart, PostgresPart, KeycloakUrl, KeycloakPart, AppPart;
    hide Finish, BuildRoute;
    hide Settled, Proceeds;
    var g := StagesOf(o, p, s);
    GetsToApp(o, p, s);
    AppFormed(p);
    FootprintHas(p);
    ComparedWorks(o, p, g.s7, p.appService, SameService);
    var u := EnsureSame(o, p, g.s7, p.appService, SameService).0;
    call := u.w.clock;
    var b := BlindFailing(o, call);
    SeenBlindly(o, call, p, s);
    FootprintIsLocal(p, p.appService.key);
    EnsureSameIsBlind(o, b, call, p, g.s7, p.appService, SameService) by { HereAt(p, g.s7); }
    MiddleStagesAreBlind(o, b, call, p, s);
    ReadFails(o, p, g.s7, p.appService, g.appRoute);
    StageSteps(b, p, Mask(s));
    var g' := StagesOf(b, p, Mask(s));
    HaltedEnd(b, p, g'.s8, g'.keycloakUrl, g'.url);
  }

  /** One refused call can make a run panic over a missing service, with a server
      that works otherwise, if and only if a component is reached by load balancer. */
  lemma LoadBalancerPanicsIff(o: Oracle, p: Plan, s: Run)
    requires WellFormed(p) && InPlace(p, s) && s.halt == None && Works(o) && Startable(p, s.w.home)
    requires (p.keycloakUri == "" && p.keycloakAccess.ByLoadBalancer?) || ReachesApp(o, p, s.w.home)
    ensures (exists call: nat :: Execute(Failing(o, call), p, s).halt == Some(Panicked(NilService))) <==>
      UsesLoadBalancer(p)
  {
    hide WellFormed, Works, Execute, InPlace, Startable, ReachesApp, StagesOf;
    if p.keycloakUri == "" && p.keycloakAccess.ByLoadBalancer? {
      var call := KeycloakReadPanics(o, p, s);
    } else if p.appAccess.ByLoadBalancer? {
      var call := AppReadPanics(o, p, s);
    } else if exists call: nat :: Execute(Failing(o, call), p, s).halt == Some(Panicked(NilService)) {
      var call: nat :| Execute(Failing(o, call), p, s).halt == Some(Panicked(NilService));
      PanicsAreFew(Failing(o, call), p, s);
    }
  }

  /* With a server that works the service that was just ensured is there to be read. */
  lemma WorkingRead(
    o: Oracle, p: Plan, s: Run, service: Manifest, access: Access, route: Option<Manifest>)
    requires WellFormed(p) && InPlace(p, s) && Works(o)
    requires OwnManifest(service, ServiceKind, p.owner.ns) && service.key in Footprint(p)
    requires s.halt != Some(Panicked(NilService))
    ensures FindUrl(o, p, s, service, access, route).0.halt != Some(Panicked(NilService))
  {
    hide WellFormed, EnsureSame, Settled, Footprint, Proceeds, NodePortUrl, RoutedUrl, Quit;
    FindUrlEnds(o, p, s, service, access, route);
    EnsureSameEnds(o, p, s, service, SameService);
    if access.ByLoadBalancer? && s.halt == None {
      var u := EnsureSame(o, p, s, service, SameService).0;
      PlainProceeds(o, p, s, service, SameService);
      ThereWhenSettled(s, u, service, SameService);
      if u.halt == None {
        QuitWith(o, u.(w := Get(o, u.w, service.key).0), Pending, WaitingForUrl(service.key), Requeued);
      }
    }
  }

  /** A server that works never makes a run panic over a missing service. */
  lemma WorkingNeverPanics(o: Oracle, p: Plan, s: Run)
    requires WellFormed(p) && InPlace(p, s) && s.halt == None && Works(o)
    ensures Execute(o, p, s).halt != Some(Panicked(NilService))
  {
    hide WellFormed, Works, Execute, InPlace, StagesOf, FindUrl, BuildRoute, KeycloakPart, AppPart, Finish, Staged;
    hide TrustPart, SecretsPart, PostgresPart, AllThere, Footprint, UrlVerdicts, EnsureSame;
    var g := StagesOf(o, p, s);
    StagesHold(o, p, s);
    StageSteps(o, p, s);
    StagesEnd(o, p, s);
    AppFormed(p);
    AtStages(p, g);
    var nil := Some(Panicked(NilService));
    assert g.s4.halt != nil;
    WorkingRead(o, p, g.s4, p.keycloakService, p.keycloakAccess, g.keycloakRoute);
    assert g.s5.halt != nil && g.s7.halt != nil;
    WorkingRead(o, p, g.s7, p.appService, p.appAccess, g.appRoute);
  }

  lemma AtStages(p: Plan, g: Stages)
    requires AllHoused(p, g)
    ensures InPlace(p, g.s4) && InPlace(p, g.s7)
  {
    hide AllThere;
  }
}
