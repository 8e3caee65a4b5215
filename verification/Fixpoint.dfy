/**
  The fixpoint: when everything is as wanted, a run changes no object, and when
  the API server answers it changes no status either.
 */
module Fixpoint {
  import opened Wrappers
  import opened Resources
  import opened HorreumApi
  import opened Matching
  import opened Worlds
  import opened Plans
  import opened Steps
  import opened Builders
  import opened Reconciling
  import opened Effects
  import opened Potentials
  import opened Safety
  import opened Convergence
  import opened Readiness
  import Names

  /* Every call is answered. */
  ghost predicate Answers(o: Oracle) {
    forall n: nat :: o.reply(n) == Ok
  }

  /* Nothing happens, except that an unanswered call may end the run. */
  ghost predicate Rests(o: Oracle, s: Run, t: Run) {
    && Kept(s, t) && t.w.ns == s.w.ns
    && (s.halt.Some? ==> t == s)
    && (t.halt == None ==> t.st == s.st && t.notes == s.notes && t.w.cr == s.w.cr)
    && (s.halt == None && Answers(o) ==> t.halt == None)
  }

  lemma EnsureSameRests(o: Oracle, p: Plan, s: Run, want: Manifest, mode: Mode)
    requires want.key.ns == s.w.ns && (s.halt == None ==> Fine(s.w.home, want, mode))
    ensures var (t, out) := EnsureSame(o, p, s, want, mode);
      Rests(o, s, t) && (t.halt == None ==> out == Some(s.w.home[want.key]))
  {
    hide Matches, CheckProblem, Live;
  }

  /* Secrets are compared for nothing: only whether they are there matters, so
     the fresh passwords of a run are thrown away. */
  lemma SecretStepRests(o: Oracle, p: Plan, s: Run, task: SecretTask)
    requires task.key.ns == s.w.ns && (s.halt == None ==> SecretFine(s.w.home, task))
    ensures Rests(o, s, SecretStep(o, p, s, task))
  {
    hide Rests, EnsureSame, SecretProblem;
    EnsureSameRests(o, p, s, SecretManifest(o, s.w.clock, task), HasKeys(NeededKeys(task)));
  }

  lemma SecretsPartRests(o: Oracle, p: Plan, s: Run)
    requires WellFormed(p) && InPlace(p, s) && (s.halt == None ==> SecretsFine(p, s.w.home))
    ensures Rests(o, s, SecretsPart(o, p, s))
  {
    hide SecretStep, SecretFine, Answers;
    SecretKinds(p);
    var s1 := SecretStep(o, p, s, p.dbAdmin);
    var s2 := SecretStep(o, p, s1, p.appUser);
    var s3 := SecretStep(o, p, s2, p.keycloakAdmin);
    var s4 := SecretStep(o, p, s3, p.keycloakDb);
    SecretStepRests(o, p, s, p.dbAdmin);
    SecretStepRests(o, p, s1, p.appUser);
    SecretStepRests(o, p, s2, p.keycloakAdmin);
    SecretStepRests(o, p, s3, p.keycloakDb);
    SecretStepRests(o, p, s4, p.admin);
  }

  lemma CreateIfMissingRests(o: Oracle, p: Plan, s: Run, k: Key, made: Option<Manifest>)
    requires k.ns == s.w.ns && (s.halt == None ==> k in s.w.home)
    ensures Rests(o, s, CreateIfMissing(o, p, s, k, made))
  {
    hide Live;
  }

  lemma LoadAuthorityRests(o: Oracle, p: Plan, s: Run)
    requires p.caKey.ns == s.w.ns && (s.halt == None ==> p.caKey in s.w.home && ReadAuthority(s.w.home[p.caKey]).Some?)
    ensures Rests(o, s, LoadAuthority(o, p, s).0)
  {
    hide Live, CaCertificate, ReadAuthority;
  }

  lemma TrustPartRests(o: Oracle, p: Plan, s: Run)
    requires WellFormed(p) && InPlace(p, s) && s.halt == None && TrustFine(p, s.w.home)
    ensures Rests(o, s, TrustPart(o, p, s))
  {
    hide EnsureSame, LoadAuthority, CreateIfMissing, Answers, Footprint, Proceeds, ReadAuthority;
    CertKinds(p);
    if p.routes {
      ExistsIsFine(s.w.home, TrustManifest(p));
      EnsureSameRests(o, p, s, TrustManifest(p), Exists);
    } else {
      var s0, authority, s1, s2, s3 := TrustSteps(o, p, s);
      LoadAuthorityRests(o, p, s);
      if authority.Some? {
        assert CertKeys(p) <= s.w.home.Keys;
        assert p.appCert.key in CertKeys(p) && p.keycloakCert.key in CertKeys(p);
        CreateIfMissingRests(o, p, s0, p.trustKey, Some(TrustBundle(p, authority.value)));
        CreateIfMissingRests(o, p, s1, p.appCert.key, CertSecret(o, s1.w.clock + 1, p, authority.value, p.appCert));
        CreateIfMissingRests(
          o, p, s2, p.keycloakCert.key, CertSecret(o, s2.w.clock + 1, p, authority.value, p.keycloakCert));
      }
    }
  }

  lemma ExistsIsFine(h: map<Key, Obj>, want: Manifest)
    requires want.key in h
    ensures Fine(h, want, Exists)
  {
  }

  lemma EnsureDeletedRests(o: Oracle, s: Run, k: Key)
    requires k.ns == s.w.ns && (s.halt == None ==> k !in s.w.home)
    ensures Rests(o, s, EnsureDeleted(o, s, k))
  {
  }

  lemma PostgresPartRests(o: Oracle, p: Plan, s: Run)
    requires WellFormed(p) && InPlace(p, s) && (s.halt == None ==> PostgresFine(p, s.w.home))
    ensures Rests(o, s, PostgresPart(o, p, s))
  {
    hide EnsureSame, EnsureDeleted, Fine, Answers, SecretsFormed, RoutesFormed;
    if p.postgres {
      var s1 := EnsureSame(o, p, s, p.postgresMap, SameData).0;
      var s2 := EnsureSame(o, p, s1, p.postgresPod, SamePod).0;
      EnsureSameRests(o, p, s, p.postgresMap, SameData);
      EnsureSameRests(o, p, s1, p.postgresPod, SamePod);
      EnsureSameRests(o, p, s2, p.postgresService, SameService);
    } else {
      EnsureDeletedRests(o, s, p.postgresPod.key);
      EnsureDeletedRests(o, EnsureDeleted(o, s, p.postgresPod.key), p.postgresService.key);
    }
  }

  lemma BuildRouteRests(o: Oracle, p: Plan, s: Run, task: RouteTask)
    requires InPlace(p, s) && (s.halt == None ==> Buildable(p, s.w.home, task))
    ensures Rests(o, s, BuildRoute(o, p, s, task).0)
  {
    hide RouteFor, TlsFromSecret;
  }

  lemma FindUrlRests(
    o: Oracle, p: Plan, s: Run, service: Manifest, access: Access, task: RouteTask, route: Option<Manifest>)
    requires InPlace(p, s) && Built(p, s, task, route) && service.key.ns == p.owner.ns && task.key.ns == p.owner.ns
    requires access.ByRoute? ==> p.routes
    requires s.halt == None ==> EdgeFine(p, s.w.home, service, access, task)
    ensures var (t, url) := FindUrl(o, p, s, service, access, route);
      Rests(o, s, t) && (t.halt == None ==> url == UrlNow(p, s.w.home, service.key, access, task.key))
  {
    hide EnsureSame, Fine, AwaitUrl, LoadBalancerUrl, NodeUrl, RouteUrl, RouteWanted, Quit;
    var u := EnsureSame(o, p, s, service, SameService).0;
    EnsureSameRests(o, p, s, service, SameService);
    if u.halt == None && access.ByRoute? {
      EnsureSameRests(o, p, u, route.value, SameRoute);
    }
  }

  lemma KeycloakUrlRests(o: Oracle, p: Plan, s: Run, route: Option<Manifest>)
    requires WellFormed(p) && InPlace(p, s) && Built(p, s, p.keycloakRoute, route)
    requires s.halt == None ==> KeycloakFine(p, s.w.home)
    ensures var (t, url) := KeycloakUrl(o, p, s, route);
      Rests(o, s, t) && (t.halt == None ==> url == KeycloakUrlNow(p, s.w.home))
  {
    hide FindUrl, Fine, EdgeFine, UrlNow, Built, Answers;
    if p.keycloakUri == "" && s.halt == None {
      FindUrlRests(o, p, s, p.keycloakService, p.keycloakAccess, p.keycloakRoute, route);
    }
  }

  /* The status is only touched by the assignment of the URL. */
  lemma KeycloakPartRests(o: Oracle, p: Plan, s: Run, url: string)
    requires WellFormed(p) && InPlace(p, s)
    requires s.halt == None ==> KeycloakFine(p, s.w.home) && url == KeycloakUrlNow(p, s.w.home)
    ensures Rests(o, if s.halt == None then s.(st := s.st.(keycloakUrl := url)) else s, KeycloakPart(o, p, s, url))
  {
    hide EnsureSame, EnsureDeleted, Fine, EdgeFine, KeycloakUrlNow, Answers, SecretsFormed, MapsFormed;
    if s.halt == None {
      var r := s.(st := s.st.(keycloakUrl := url));
      if p.keycloakUri == "" {
        EnsureSameRests(o, p, r, p.keycloakPod(url).value, SamePod);
      } else {
        var s1 := EnsureDeleted(o, r, p.keycloakPodKey);
        var s2 := EnsureDeleted(o, s1, p.keycloakService.key);
        EnsureDeletedRests(o, r, p.keycloakPodKey);
        EnsureDeletedRests(o, s1, p.keycloakService.key);
        if p.routes { EnsureDeletedRests(o, s2, p.keycloakRoute.key); }
      }
    }
  }

  lemma AppPartRests(o: Oracle, p: Plan, s: Run, keycloakUrl: string, url: string)
    requires WellFormed(p) && InPlace(p, s)
    requires s.halt == None ==>
      AppFine(p, s.w.home) && keycloakUrl == KeycloakUrlNow(p, s.w.home) && url == AppUrlNow(p, s.w.home)
    ensures Rests(o, if s.halt == None then s.(st := s.st.(publicUrl := url)) else s,
                  AppPart(o, p, s, keycloakUrl, url))
  {
    hide EnsureSame, Fine, EdgeFine, KeycloakUrlNow, AppUrlNow, Answers, SecretsFormed, MapsFormed;
    if s.halt == None {
      EnsureSameRests(o, p, s.(st := s.st.(publicUrl := url)), p.appPod(keycloakUrl, url), SamePod);
    }
  }

  /* At the end the status is stored as it is. */
  lemma FinishRests(o: Oracle, p: Plan, s: Run)
    requires WellFormed(p) && InPlace(p, s) && (s.halt == None ==> p.upload.key in s.w.home)
    ensures var t := Finish(o, p, s);
      && Kept(s, t)
      && (s.halt == None && Answers(o) ==>
            t.halt == Some(Finished) && t.st == s.st && t.notes == s.notes &&
            t.w.cr == if s.w.cr == None then None else Some(s.w.cr.value.(status := s.st)))
  {
    hide EnsureSame, SecretsFormed, PodsFormed, ServicesFormed;
    if s.halt == None { ExistsIsFine(s.w.home, p.upload); }
    EnsureSameRests(o, p, s, p.upload, Exists);
  }

  lemma FirstHalfRests(o: Oracle, p: Plan, s: Run)
    requires WellFormed(p) && InPlace(p, s) && s.halt == None && Prologue(o, p, s).halt == None
    requires AsWanted(p, s.w.home)
    ensures var g := StagesOf(o, p, s);
      && Kept(s, g.s0) && Rests(o, g.s0, g.s1) && Rests(o, g.s1, g.s2) && Rests(o, g.s2, g.s3) && Rests(o, g.s3, g.s4)
      && Rests(o, g.s4, g.s5) && (g.s5.halt == None ==> g.keycloakUrl == KeycloakUrlNow(p, s.w.home))
      && Staged(p, g) && AllHoused(p, g)
      && Built(p, g.s4, p.keycloakRoute, g.keycloakRoute) && Built(p, g.s7, p.appRoute, g.appRoute)
      && g.end == Execute(o, p, s) && g.s0 == Prologue(o, p, s)
      && g.s6 == KeycloakPart(o, p, g.s5, g.keycloakUrl)
      && (g.s7, g.appRoute) == BuildRoute(o, p, g.s6, p.appRoute)
      && (g.s8, g.url) == FindUrl(o, p, g.s7, p.appService, p.appAccess, g.appRoute)
      && g.s9 == AppPart(o, p, g.s8, g.keycloakUrl, g.url)
      && g.end == Finish(o, p, g.s9)
  {
    hide Proceeds, WellFormed, Prologue, TrustFine, SecretsFine, PostgresFine, KeycloakFine, AppFine, Buildable, Built;
    hide TrustPart, SecretsPart, PostgresPart, BuildRoute, KeycloakUrl, KeycloakPart, FindUrl, AppPart, Finish;
    hide KeycloakUrlNow, AllThere, Answers;
    var g := StagesOf(o, p, s);
    StagesHold(o, p, s);
    TrustPartRests(o, p, g.s0);
    SecretsPartRests(o, p, g.s1);
    PostgresPartRests(o, p, g.s2);
    BuildRouteRests(o, p, g.s3, p.keycloakRoute);
    BuildPays(o, p, g.s3, p.keycloakRoute);
    BuildPays(o, p, g.s6, p.appRoute);
    KeycloakUrlRests(o, p, g.s4, g.keycloakRoute);
  }

  /** When everything is as wanted, no run creates or deletes anything, whatever
      the API server answers; and a run whose calls are answered ends Ready, with
      the status untouched if it was Ready with these URLs before. */
  lemma WantedRunRests(o: Oracle, p: Plan, s: Run)
    requires WellFormed(p) && InPlace(p, s) && s.halt == None && AsWanted(p, s.w.home)
    ensures var t := Execute(o, p, s);
      && Kept(s, t)
      && (Answers(o) ==>
            && t.halt == Some(Finished) && t.st.phase == Ready && t.notes == s.notes
            && t.st.keycloakUrl == KeycloakUrlNow(p, s.w.home) && t.st.publicUrl == AppUrlNow(p, s.w.home)
            && (s.st.phase == Ready ==>
                  t.st == s.st.(keycloakUrl := t.st.keycloakUrl, publicUrl := t.st.publicUrl))
            && t.w.cr == if s.w.cr == None then None else Some(s.w.cr.value.(status := t.st)))
  {
    hide Proceeds, WellFormed, TrustFine, SecretsFine, PostgresFine, KeycloakFine, AppFine, Buildable, Built;
    hide KeycloakPart, FindUrl, AppPart, Finish, BuildRoute, StagesOf, Execute, Staged, AllThere, Answers;
    hide KeycloakUrlNow, AppUrlNow;
    FirstHalfRests(o, p, s);
    var g := StagesOf(o, p, s);
    KeycloakPartRests(o, p, g.s5, g.keycloakUrl);
    BuildRouteRests(o, p, g.s6, p.appRoute);
    AppSideRests(o, p, g.s7, g.keycloakUrl, g.appRoute);
  }

  lemma AppSideRests(o: Oracle, p: Plan, s: Run, keycloakUrl: string, route: Option<Manifest>)
    requires WellFormed(p) && InPlace(p, s) && Built(p, s, p.appRoute, route)
    requires s.halt == None ==>
      AppFine(p, s.w.home) && p.upload.key in s.w.home && keycloakUrl == KeycloakUrlNow(p, s.w.home)
    ensures var (s8, url) := FindUrl(o, p, s, p.appService, p.appAccess, route);
      var t := Finish(o, p, AppPart(o, p, s8, keycloakUrl, url));
      && Kept(s, t)
      && (s.halt == None && Answers(o) ==>
            && t.halt == Some(Finished) && t.notes == s.notes
            && t.st == s.st.(publicUrl := AppUrlNow(p, s.w.home))
            && t.w.cr == if s.w.cr == None then None else Some(s.w.cr.value.(status := t.st)))
  {
    hide WellFormed, AppFine, EdgeFine, Built, AppPart, FindUrl, Finish, Answers, KeycloakUrlNow, UrlNow;
    if s.halt == None { EdgeOfApp(p, s.w.home); }
    RoutedOnlyWithRoutes(p);
    AppFormed(p);
    FootprintIsLocal(p, p.appRoute.key);
    FindUrlRests(o, p, s, p.appService, p.appAccess, p.appRoute, route);
    var (s8, url) := FindUrl(o, p, s, p.appService, p.appAccess, route);
    AppPartRests(o, p, s8, keycloakUrl, url);
    FinishRests(o, p, AppPart(o, p, s8, keycloakUrl, url));
  }

  lemma EdgeOfApp(p: Plan, h: map<Key, Obj>)
    requires AppFine(p, h)
    ensures EdgeFine(p, h, p.appService, p.appAccess, p.appRoute)
  {
    hide EdgeFine, Fine;
  }

  /** The fixpoint: after a run that ended Ready and whose status was stored, the
      next run creates and deletes nothing, and if it is answered it leaves the
      whole status, its last update included, and the stored resource unchanged,
      although it draws new passwords. */
  lemma ReadyIsAFixpoint(o: Oracle, o': Oracle, env: Env, w: World)
    requires Sound(w)
    requires var t := Reconcile(o, env, w);
      t.halt == Some(Finished) && t.st.phase == Ready &&
      w.cr.Some? && t.w.cr == Some(w.cr.value.(status := t.st))
    ensures var t := Reconcile(o, env, w);
      var u := Reconcile(o', env, t.w);
      && u.w.home == t.w.home && u.w.log == t.w.log
      && (Answers(o') ==> u.halt == Some(Finished) && u.st == t.st && u.w.cr == t.w.cr)
  {
    hide Execute, AsWanted, PlanFor, KeycloakUrlNow, AppUrlNow, WellFormed;
    var cr := w.cr.value;
    var t := Reconcile(o, env, w);
    var p := PlanOf(env, cr);
    Names.PlanIsWellFormed(env, cr);
    Names.PlanOwner(env, cr);
    var s := Run(Tick(o, w), cr.status, [], None);
    assert t == Execute(o, p, s);
    ReadyIsSound(o, p, s);
    SamePlace(o, p, s);
    assert PlanOf(env, t.w.cr.value) == p;
    var s' := Run(Tick(o', t.w), t.st, [], None);
    WantedRunRests(o', p, s');
  }

  /** Ready is sound, for the reconciler as a whole: a reconciliation that
      returns no error and no requeue with status Ready leaves exactly what the
      resource asks for. */
  lemma ReadyMeansWanted(o: Oracle, env: Env, w: World)
    requires Sound(w) && w.cr.Some?
    requires Reconcile(o, env, w).halt == Some(Finished) && Reconcile(o, env, w).st.phase == Ready
    ensures var p, t := PlanOf(env, w.cr.value), Reconcile(o, env, w);
      && AsWanted(p, t.w.home)
      && t.st.keycloakUrl == KeycloakUrlNow(p, t.w.home) != "" && t.st.publicUrl == AppUrlNow(p, t.w.home) != ""
  {
    hide Execute, AsWanted, PlanOf, KeycloakUrlNow, AppUrlNow, WellFormed;
    var p := PlanOf(env, w.cr.value);
    Names.PlanIsWellFormed(env, w.cr.value);
    Names.PlanOwner(env, w.cr.value);
    ReadyIsSound(o, p, Run(Tick(o, w), w.cr.value.status, [], None));
  }

  lemma SamePlace(o: Oracle, p: Plan, s: Run)
    requires WellFormed(p) && InPlace(p, s) && s.halt == None
    ensures Execute(o, p, s).w.ns == s.w.ns
  {
    hide Execute, Proceeds, Prologue;
    ExecuteProceeds(o, p, s);
    NamespaceKept(p, Prologue(o, p, s), Execute(o, p, s));
    PrologueKeeps(o, p, s);
  }

  lemma NamespaceKept(p: Plan, s: Run, t: Run)
    requires Proceeds(p, s, t)
    ensures t.w.ns == s.w.ns
  {
    hide Explained, Summed;
  }
}
