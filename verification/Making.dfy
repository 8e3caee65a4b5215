/**
  Which objects a run creates, and from what: every creation that a run logs, at
  whatever point it is cut short, is traced back to the part of the run that made
  it and to the objects that were there at that call.
 */
module Making {
  import opened Wrappers
  import opened Resources
  import opened HorreumApi
  import opened Matching
  import opened Worlds
  import opened Plans
  import opened Steps
  import opened Safety

  /* The later state was reached by calls, and every object created meanwhile meets a condition. */
  ghost predicate MakesOnly(s: Run, t: Run, q: Event -> bool) {
    && s.w.clock <= t.w.clock && s.w.log <= t.w.log
    && forall i | |s.w.log| <= i < |t.w.log| && t.w.log[i].Made? :: q(t.w.log[i])
  }

  lemma MakesOn(s: Run, t: Run, u: Run, q: Event -> bool)
    requires MakesOnly(s, t, q) && MakesOnly(t, u, q)
    ensures MakesOnly(s, u, q)
  {
  }

  /* The creation of an object, from a state in which at most the one was deleted
     that it replaces. */
  predicate IsMaking(e: Event, m: Manifest, home: map<Key, Obj>) {
    e.Made? && e.what == m && (e.before == home || e.before == home - {m.key})
  }

  ghost predicate MayMake(q: Event -> bool, m: Manifest, home: map<Key, Obj>) {
    forall e: Event | IsMaking(e, m, home) :: q(e)
  }

  lemma QuitMakes(o: Oracle, s: Run, phase: Phase, reason: Reason, verdict: Verdict, q: Event -> bool)
    ensures MakesOnly(s, Quit(o, s, phase, reason, verdict), q)
  {
  }

  lemma CreateStepMakes(o: Oracle, p: Plan, s: Run, want: Manifest, home: map<Key, Obj>, q: Event -> bool)
    requires MayMake(q, want, home) && (s.w.home == home || s.w.home == home - {want.key})
    ensures MakesOnly(s, CreateStep(o, p, s, want), q)
  {
    hide Live, Quit;
    var u := s.(w := Create(o, s.w, p.owner, want).0);
    assert IsMaking(Made(want, Live(o, s.w.clock, p.owner, want), s.w.home), want, home);
    QuitMakes(o, u, Error, CannotCreate(want.key), Failed, q);
  }

  lemma ReplaceStepMakes(o: Oracle, p: Plan, s: Run, want: Manifest, q: Event -> bool)
    requires MayMake(q, want, s.w.home)
    ensures MakesOnly(s, ReplaceStep(o, p, s, want), q)
  {
    hide CreateStep, Quit, MayMake;
    var u := s.(w := Delete(o, s.w, want.key).0);
    CreateStepMakes(o, p, u, want, s.w.home, q);
    QuitMakes(o, u, Error, CannotDelete(want.key), Failed, q);
  }

  lemma EnsureSameMakes(o: Oracle, p: Plan, s: Run, want: Manifest, mode: Mode, q: Event -> bool)
    requires s.halt == None ==> MayMake(q, want, s.w.home)
    ensures MakesOnly(s, EnsureSame(o, p, s, want, mode).0, q)
  {
    hide Matches, CheckProblem, CreateStep, ReplaceStep, Quit, MayMake;
    if s.halt == None {
      var u := s.(w := Get(o, s.w, want.key).0);
      CreateStepMakes(o, p, u, want, s.w.home, q);
      ReplaceStepMakes(o, p, u, want, q);
      QuitMakes(o, u, Error, CannotFind(want.key), Failed, q);
    }
  }

  lemma EnsureDeletedMakes(o: Oracle, s: Run, k: Key, q: Event -> bool)
    ensures MakesOnly(s, EnsureDeleted(o, s, k), q)
  {
    hide Quit;
    var u := s.(w := Get(o, s.w, k).0);
    QuitMakes(o, u, Error, CannotFind(k), Failed, q);
    QuitMakes(o, u.(w := Delete(o, u.w, k).0), Error, CannotDelete(k), Failed, q);
  }

  lemma CreateIfMissingMakes(o: Oracle, p: Plan, s: Run, k: Key, made: Option<Manifest>, q: Event -> bool)
    requires s.halt == None && made.Some? ==> MayMake(q, made.value, s.w.home)
    ensures MakesOnly(s, CreateIfMissing(o, p, s, k, made), q)
  {
    hide Live;
    if s.halt == None && made.Some? {
      var w := Get(o, s.w, k).0;
      assert IsMaking(Made(made.value, Live(o, w.clock, p.owner, made.value), w.home), made.value, s.w.home);
    }
  }

  // The parts of a run

  /* What the part makes that creates the chain of trust. */
  predicate IsCertSecret(m: Manifest) {
    m.SecretM? && m.data.Keys == {TLSCERT, TLSKEY} && m.data[TLSCERT].CertPem? && m.data[TLSKEY].KeyPem? &&
    m.data[TLSKEY].key.public == m.data[TLSCERT].cert.publicKey
  }

  predicate TrustMade(p: Plan, m: Manifest) {
    || (m.ConfigMapM? && m.key == p.trustKey)
    || (!p.routes && m.key in CertKeys(p) && IsCertSecret(m))
  }

  ghost predicate MayMakeTrust(q: Event -> bool, p: Plan) {
    forall e: Event | e.Made? && TrustMade(p, e.what) :: q(e)
  }

  lemma LoadAuthorityMakes(o: Oracle, p: Plan, s: Run, q: Event -> bool)
    requires !p.routes && MayMakeTrust(q, p)
    ensures MakesOnly(s, LoadAuthority(o, p, s).0, q)
  {
    hide Live, ReadAuthority, Quit;
    if s.halt == None {
      var w := Get(o, s.w, p.caKey).0;
      if o.rsa(w.clock).Some? {
        var want := CaSecret(p, o.rsa(w.clock).value);
        assert TrustMade(p, want);
        QuitMakes(o, s.(w := Create(o, w, p.owner, want).0), Error, CannotCreateCaSecret, Failed, q);
        assert TrustMade(p, Made(want, Live(o, w.clock, p.owner, want), w.home).what);
      }
    }
  }

  lemma CertMakes(o: Oracle, p: Plan, s: Run, authority: Option<Authority>, task: CertTask, q: Event -> bool)
    requires !p.routes && MayMakeTrust(q, p) && task.key in CertKeys(p)
    ensures MakesOnly(s, CreateServiceCert(o, p, s, authority, task), q)
  {
    hide CreateIfMissing, DnsNames, ServiceSans, CertKeys;
    if authority.Some? {
      var made := CertSecret(o, s.w.clock + 1, p, authority.value, task);
      assert made.Some? ==> TrustMade(p, made.value);
      CreateIfMissingMakes(o, p, s, task.key, made, q);
    }
  }

  lemma TrustPartMakes(o: Oracle, p: Plan, s: Run, q: Event -> bool)
    requires MayMakeTrust(q, p)
    ensures MakesOnly(s, TrustPart(o, p, s), q)
  {
    hide EnsureSame, CreateIfMissing, LoadAuthority, CreateServiceCert, MakesOnly, IsCertSecret;
    MakesNothing(s, q);
    if s.halt.Some? {
    } else if p.routes {
      assert TrustMade(p, TrustManifest(p));
      EnsureSameMakes(o, p, s, TrustManifest(p), Exists, q);
    } else {
      var (s0, authority) := LoadAuthority(o, p, s);
      LoadAuthorityMakes(o, p, s, q);
      var s1 := CreateCA(o, p, s).0;
      MakesNothing(s0, q);
      if authority.Some? {
        assert TrustMade(p, TrustBundle(p, authority.value));
        CreateIfMissingMakes(o, p, s0, p.trustKey, Some(TrustBundle(p, authority.value)), q);
      }
      var s2 := CreateServiceCert(o, p, s1, authority, p.appCert);
      CertMakes(o, p, s1, authority, p.appCert, q);
      CertMakes(o, p, s2, authority, p.keycloakCert, q);
      MakesOn(s, s0, s1, q);
      MakesOn(s, s1, s2, q);
      MakesOn(s, s2, CreateServiceCert(o, p, s2, authority, p.keycloakCert), q);
    }
  }

  lemma MakesNothing(s: Run, q: Event -> bool)
    ensures MakesOnly(s, s, q)
  {
  }

  lemma SecretsPartMakesSecrets(o: Oracle, p: Plan, s: Run, q: Event -> bool)
    requires forall e: Event | e.Made? && e.what.SecretM? :: q(e)
    ensures MakesOnly(s, SecretsPart(o, p, s), q)
  {
    hide EnsureSame, MakesOnly;
    var s1 := SecretStep(o, p, s, p.dbAdmin);
    var s2 := SecretStep(o, p, s1, p.appUser);
    var s3 := SecretStep(o, p, s2, p.keycloakAdmin);
    var s4 := SecretStep(o, p, s3, p.keycloakDb);
    SecretStepMakes(o, p, s, p.dbAdmin, q);
    SecretStepMakes(o, p, s1, p.appUser, q);
    SecretStepMakes(o, p, s2, p.keycloakAdmin, q);
    SecretStepMakes(o, p, s3, p.keycloakDb, q);
    SecretStepMakes(o, p, s4, p.admin, q);
    MakesOn(s, s1, s2, q);
    MakesOn(s, s2, s3, q);
    MakesOn(s, s3, s4, q);
    MakesOn(s, s4, SecretsPart(o, p, s), q);
  }

  lemma SecretStepMakes(o: Oracle, p: Plan, s: Run, task: SecretTask, q: Event -> bool)
    requires forall e: Event | e.Made? && e.what.SecretM? :: q(e)
    ensures MakesOnly(s, SecretStep(o, p, s, task), q)
  {
    hide EnsureSame;
    EnsureSameMakes(o, p, s, SecretManifest(o, s.w.clock, task), HasKeys(NeededKeys(task)), q);
  }

  lemma PostgresPartMakes(o: Oracle, p: Plan, s: Run, q: Event -> bool)
    requires forall e: Event | e.Made? && e.what in {p.postgresMap, p.postgresPod, p.postgresService} :: q(e)
    ensures MakesOnly(s, PostgresPart(o, p, s), q)
  {
    hide EnsureSame, EnsureDeleted, MakesOnly;
    if p.postgres {
      var s1 := EnsureSame(o, p, s, p.postgresMap, SameData).0;
      var s2 := EnsureSame(o, p, s1, p.postgresPod, SamePod).0;
      EnsureSameMakes(o, p, s, p.postgresMap, SameData, q);
      EnsureSameMakes(o, p, s1, p.postgresPod, SamePod, q);
      EnsureSameMakes(o, p, s2, p.postgresService, SameService, q);
      MakesOn(s, s1, s2, q);
      MakesOn(s, s2, PostgresPart(o, p, s), q);
    } else {
      var s1 := EnsureDeleted(o, s, p.postgresPod.key);
      EnsureDeletedMakes(o, s, p.postgresPod.key, q);
      EnsureDeletedMakes(o, s1, p.postgresService.key, q);
      MakesOn(s, s1, PostgresPart(o, p, s), q);
    }
  }

  lemma BuildRouteMakes(o: Oracle, p: Plan, s: Run, task: RouteTask, q: Event -> bool)
    ensures MakesOnly(s, BuildRoute(o, p, s, task).0, q)
  {
    hide RouteFor, TlsFromSecret;
  }

  /* The secrets of the namespace are the same. */
  ghost predicate SameSecrets(a: map<Key, Obj>, b: map<Key, Obj>) {
    forall k: Key | k.kind == SecretKind :: (k in a <==> k in b) && (k in a ==> a[k] == b[k])
  }

  ghost predicate MayMakeBeside(q: Event -> bool, m: Manifest, home: map<Key, Obj>) {
    forall e: Event | e.Made? && e.what == m && SameSecrets(home, e.before) :: q(e)
  }

  lemma CreateStepKeepsSecrets(o: Oracle, p: Plan, s: Run, want: Manifest)
    requires want.key.kind != SecretKind
    ensures SameSecrets(s.w.home, CreateStep(o, p, s, want).w.home)
  {
    hide Live, Quit;
    QuitKeeps(o, s.(w := Create(o, s.w, p.owner, want).0), Error, CannotCreate(want.key), Failed);
  }

  lemma ReplaceStepKeepsSecrets(o: Oracle, p: Plan, s: Run, want: Manifest)
    requires want.key.kind != SecretKind
    ensures SameSecrets(s.w.home, ReplaceStep(o, p, s, want).w.home)
  {
    hide CreateStep, Quit;
    var u := s.(w := Delete(o, s.w, want.key).0);
    CreateStepKeepsSecrets(o, p, u, want);
    QuitKeeps(o, u, Error, CannotDelete(want.key), Failed);
  }

  lemma EnsureSameKeepsSecrets(o: Oracle, p: Plan, s: Run, want: Manifest, mode: Mode)
    requires want.key.kind != SecretKind
    ensures SameSecrets(s.w.home, EnsureSame(o, p, s, want, mode).0.w.home)
  {
    hide Matches, CheckProblem, CreateStep, ReplaceStep, Quit;
    var u := s.(w := Get(o, s.w, want.key).0);
    CreateStepKeepsSecrets(o, p, u, want);
    ReplaceStepKeepsSecrets(o, p, u, want);
    QuitKeeps(o, u, Error, CannotFind(want.key), Failed);
  }

  lemma EnsureSameMakesBeside(
    o: Oracle, p: Plan, s: Run, want: Manifest, mode: Mode, home: map<Key, Obj>, q: Event -> bool)
    requires want.key.kind != SecretKind && MayMakeBeside(q, want, home) && SameSecrets(home, s.w.home)
    ensures MakesOnly(s, EnsureSame(o, p, s, want, mode).0, q)
  {
    hide EnsureSame, MakesOnly;
    EnsureSameMakes(o, p, s, want, mode, q);
  }

  lemma FindUrlMakes(
    o: Oracle, p: Plan, s: Run, service: Manifest, access: Access, route: Option<Manifest>, q: Event -> bool)
    requires service.key.kind != SecretKind && MayMakeBeside(q, service, s.w.home)
    requires route.Some? ==> route.value.key.kind != SecretKind && MayMakeBeside(q, route.value, s.w.home)
    ensures MakesOnly(s, FindUrl(o, p, s, service, access, route).0, q)
  {
    hide EnsureSame, Quit, MakesOnly, MayMakeBeside, NodePortUrl, LoadBalancerUrl, RoutedUrl, SameSecrets;
    var u := EnsureSame(o, p, s, service, SameService).0;
    NoSecretChanges(s.w.home);
    EnsureSameMakesBeside(o, p, s, service, SameService, s.w.home, q);
    EnsureSameKeepsSecrets(o, p, s, service, SameService);
    MakesNothing(u, q);
    NodePortUrlMakes(o, p, u, service, q);
    LoadBalancerUrlMakes(o, u, service, q);
    QuitMakes(o, u, Pending, WaitingForUrl(service.key), Requeued, q);
    RoutedUrlMakes(o, p, u, service, route, s.w.home, q);
    MakesOn(s, u, FindUrl(o, p, s, service, access, route).0, q);
  }

  lemma NoSecretChanges(h: map<Key, Obj>)
    ensures SameSecrets(h, h)
  {
  }

  lemma NodePortUrlMakes(o: Oracle, p: Plan, s: Run, service: Manifest, q: Event -> bool)
    ensures MakesOnly(s, NodePortUrl(o, p, s, service).0, q)
  {
    hide NodeUrl;
  }

  lemma LoadBalancerUrlMakes(o: Oracle, s: Run, service: Manifest, q: Event -> bool)
    ensures MakesOnly(s, LoadBalancerUrl(o, s, service).0, q)
  {
    hide Quit;
    QuitMakes(o, s.(w := Get(o, s.w, service.key).0), Pending, WaitingForUrl(service.key), Requeued, q);
  }

  lemma RoutedUrlMakes(
    o: Oracle, p: Plan, s: Run, service: Manifest, route: Option<Manifest>, home: map<Key, Obj>, q: Event -> bool)
    requires SameSecrets(home, s.w.home)
    requires route.Some? ==> route.value.key.kind != SecretKind && MayMakeBeside(q, route.value, home)
    ensures MakesOnly(s, RoutedUrl(o, p, s, service, route).0, q)
  {
    hide EnsureSame, RouteUrl, MayMakeBeside, Quit;
    if route.Some? {
      var t := EnsureSame(o, p, s, route.value, SameRoute).0;
      EnsureSameMakesBeside(o, p, s, route.value, SameRoute, home, q);
      QuitMakes(o, t, Pending, WaitingForUrl(service.key), Requeued, q);
    }
  }

  lemma KeycloakUrlMakes(o: Oracle, p: Plan, s: Run, route: Option<Manifest>, q: Event -> bool)
    requires p.keycloakService.key.kind != SecretKind && MayMakeBeside(q, p.keycloakService, s.w.home)
    requires route.Some? ==> route.value.key.kind != SecretKind && MayMakeBeside(q, route.value, s.w.home)
    ensures MakesOnly(s, KeycloakUrl(o, p, s, route).0, q)
  {
    hide FindUrl, MayMakeBeside;
    FindUrlMakes(o, p, s, p.keycloakService, p.keycloakAccess, route, q);
  }

  lemma KeycloakPartMakes(o: Oracle, p: Plan, s: Run, url: string, q: Event -> bool)
    requires s.halt == None && p.keycloakPod(url).Some? ==>
      forall e: Event | e.Made? && e.what == p.keycloakPod(url).value :: q(e)
    ensures MakesOnly(s, KeycloakPart(o, p, s, url), q)
  {
    hide EnsureSame, EnsureDeleted;
    if s.halt == None {
      var r := s.(st := s.st.(keycloakUrl := url));
      if p.keycloakPod(url).Some? { EnsureSameMakes(o, p, r, p.keycloakPod(url).value, SamePod, q); }
      var s1 := EnsureDeleted(o, r, p.keycloakPodKey);
      var s2 := EnsureDeleted(o, s1, p.keycloakService.key);
      EnsureDeletedMakes(o, r, p.keycloakPodKey, q);
      EnsureDeletedMakes(o, s1, p.keycloakService.key, q);
      EnsureDeletedMakes(o, s2, p.keycloakRoute.key, q);
    }
  }

  lemma AppPartMakes(o: Oracle, p: Plan, s: Run, keycloakUrl: string, url: string, q: Event -> bool)
    requires s.halt == None ==> forall e: Event | e.Made? && e.what == p.appPod(keycloakUrl, url) :: q(e)
    ensures MakesOnly(s, AppPart(o, p, s, keycloakUrl, url), q)
  {
    hide EnsureSame;
    if s.halt == None {
      EnsureSameMakes(o, p, s.(st := s.st.(publicUrl := url)), p.appPod(keycloakUrl, url), SamePod, q);
    }
  }

  lemma FinishMakes(o: Oracle, p: Plan, s: Run, q: Event -> bool)
    requires forall e: Event | e.Made? && e.what == p.upload :: q(e)
    ensures MakesOnly(s, Finish(o, p, s), q)
  {
    hide EnsureSame;
    EnsureSameMakes(o, p, s, p.upload, Exists, q);
  }

  // Whole runs

  /* The pods that a run may create, by the URLs it found. */
  ghost function PodsOf(p: Plan, g: Stages): set<Manifest> {
    {p.postgresPod} +
    (if g.s5.halt == None && p.keycloakPod(g.keycloakUrl).Some? then {p.keycloakPod(g.keycloakUrl).value} else {}) +
    (if g.s8.halt == None then {p.appPod(g.keycloakUrl, g.url)} else {})
  }

  function Fixtures(p: Plan): set<Manifest> {
    {p.postgresMap, p.postgresService, p.keycloakService, p.appService, p.upload}
  }

  /* The route that was built, beside the secrets that were there when it was built. */
  ghost predicate RouteMade(g: Stages, e: Event) {
    && e.Made?
    && (|| (g.s4.halt == None && g.keycloakRoute == Some(e.what) && SameSecrets(g.s4.w.home, e.before))
        || (g.s7.halt == None && g.appRoute == Some(e.what) && SameSecrets(g.s7.w.home, e.before)))
  }

  /* What a condition must admit, the five generated secrets apart. */
  ghost predicate Admits(q: Event -> bool, p: Plan, g: Stages) {
    && MayMakeTrust(q, p)
    && (forall e: Event | e.Made? && e.what in Fixtures(p) + PodsOf(p, g) :: q(e))
    && (forall e: Event | RouteMade(g, e) :: q(e))
  }

  lemma NoSecretsAmong(p: Plan)
    requires WellFormed(p)
    ensures p.keycloakService.key.kind == ServiceKind && p.appService.key.kind == ServiceKind
    ensures p.keycloakRoute.key.kind == RouteKind && p.appRoute.key.kind == RouteKind
  {
    hide SecretsFormed, MapsFormed, PodsFormed;
  }

  lemma BuiltIsRoute(o: Oracle, p: Plan, s: Run, task: RouteTask)
    ensures var (t, route) := BuildRoute(o, p, s, task);
      route.Some? ==> t.halt == None && route.value.RouteM? && route.value.key == task.key
  {
    hide TlsFromSecret, ReadTlsSecret;
  }

  /* The parts of a run before and after the generated secrets. */
  lemma StagesMake(o: Oracle, p: Plan, s: Run, q: Event -> bool)
    requires WellFormed(p) && InPlace(p, s) && s.halt == None && Admits(q, p, StagesOf(o, p, s))
    ensures var g := StagesOf(o, p, s); MakesOnly(s, g.s1, q) && MakesOnly(g.s2, Execute(o, p, s), q)
  {
    hide WellFormed, StagesOf, Execute, MakesOnly, MayMakeTrust, SameSecrets;
    hide TrustPart, SecretsPart, PostgresPart, BuildRoute, Prologue, KeycloakUrl, KeycloakPart, FindUrl;
    hide AppPart, Finish;
    var g := StagesOf(o, p, s);
    StageSteps(o, p, s);
    FirstStage(o, p, s);
    NoSecretsAmong(p);
    PrologueMakes(o, p, s, q);
    TrustPartMakes(o, p, g.s0, q);
    PostgresPartMakes(o, p, g.s2, q);
    BuildRouteMakes(o, p, g.s3, p.keycloakRoute, q);
    BuiltIsRoute(o, p, g.s3, p.keycloakRoute);
    KeycloakUrlMakes(o, p, g.s4, g.keycloakRoute, q);
    KeycloakPartMakes(o, p, g.s5, g.keycloakUrl, q);
    BuildRouteMakes(o, p, g.s6, p.appRoute, q);
    BuiltIsRoute(o, p, g.s6, p.appRoute);
    FindUrlMakes(o, p, g.s7, p.appService, p.appAccess, g.appRoute, q);
    AppPartMakes(o, p, g.s8, g.keycloakUrl, g.url, q);
    FinishMakes(o, p, g.s9, q);
    MakesOn(s, g.s0, g.s1, q);
    MakesOn(g.s2, g.s3, g.s4, q);
    MakesOn(g.s2, g.s4, g.s5, q);
    MakesOn(g.s2, g.s5, g.s6, q);
    MakesOn(g.s2, g.s6, g.s7, q);
    MakesOn(g.s2, g.s7, g.s8, q);
    MakesOn(g.s2, g.s8, g.s9, q);
    MakesOn(g.s2, g.s9, g.end, q);
  }

  lemma PrologueMakes(o: Oracle, p: Plan, s: Run, q: Event -> bool)
    ensures MakesOnly(s, Prologue(o, p, s), q)
  {
  }

  /** Every creation of a whole run, cut short or not, meets a condition that
      admits what its parts make, the generated secrets with those of their part. */
  lemma RunMakes(o: Oracle, p: Plan, s: Run, q: Event -> bool)
    requires WellFormed(p) && InPlace(p, s) && s.halt == None
    requires var g := StagesOf(o, p, s); Admits(q, p, g) && MakesOnly(g.s1, g.s2, q)
    ensures MakesOnly(s, Execute(o, p, s), q)
  {
    hide WellFormed, StagesOf, Execute, MakesOnly, Admits;
    var g := StagesOf(o, p, s);
    StagesMake(o, p, s, q);
    MakesOn(s, g.s1, g.s2, q);
    MakesOn(s, g.s2, Execute(o, p, s), q);
  }

  /* No part of a run takes a call back. */
  lemma ClocksGrow(o: Oracle, p: Plan, s: Run)
    requires WellFormed(p) && InPlace(p, s) && s.halt == None
    ensures var g := StagesOf(o, p, s); s.w.clock <= g.s1.w.clock && g.s2.w.clock <= Execute(o, p, s).w.clock
  {
    hide WellFormed, StagesOf, Execute;
    StagesMake(o, p, s, e => true);
  }
}
