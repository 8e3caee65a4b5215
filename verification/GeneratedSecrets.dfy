/**
  What is in the secrets that a run creates (controllers/horreum_controller.go:137-162,
  controllers/utils.go:40-63): the name of the secret as user name and a password
  drawn in this run.
 */
module GeneratedSecrets {
  import opened Wrappers
  import opened Resources
  import opened HorreumApi
  import opened Matching
  import opened Worlds
  import opened Plans
  import opened Steps
  import opened Effects
  import opened Builders
  import opened Reconciling
  import opened Safety
  import opened Histories
  import opened Making
  import Names

  /* A user of the secret's own name with the password of one call and, for the
     application, a further secret of the same call; and nothing else. */
  predicate IsCredential(o: Oracle, n: nat, m: Manifest, withDbSecret: bool) {
    && m.SecretM?
    && m.data.Keys == {"username", "password"} + (if withDbSecret then {"dbsecret"} else {})
    && m.data["username"] == Plain(m.key.name)
    && m.data["password"] == Plain(o.password(n))
    && (withDbSecret ==> m.data["dbsecret"] == Plain(o.dbSecret(n)))
  }

  /* The secret of the application's user.  If the user gives the same name to the
     administrator of the database, the secret is made for the latter. */
  predicate IsAppUser(p: Plan, k: Key) {
    k == p.appUser.key && k != p.dbAdmin.key
  }

  /* One of the five secrets, with what was drawn at one of these calls. */
  ghost predicate Generated(o: Oracle, p: Plan, from: nat, to: nat, m: Manifest) {
    && m.key in SecretKeys(p)
    && exists n: nat :: from <= n < to && IsCredential(o, n, m, IsAppUser(p, m.key))
  }

  /* A secret of the chain of trust, or a generated one. */
  ghost predicate SecretMade(o: Oracle, p: Plan, from: nat, to: nat, e: Event) {
    e.Made? && e.what.SecretM? ==>
      if !p.routes && e.what.key in CertKeys(p) then IsCertSecret(e.what) else Generated(o, p, from, to, e.what)
  }

  ghost predicate MayGenerate(q: Event -> bool, o: Oracle, p: Plan, from: nat, to: nat) {
    forall e: Event | SecretMade(o, p, from, to, e) :: q(e)
  }

  lemma SecretManifestIsCredential(o: Oracle, n: nat, task: SecretTask)
    ensures IsCredential(o, n, SecretManifest(o, n, task), task.withDbSecret)
    ensures SecretManifest(o, n, task).key == task.key
  {
  }

  /* A secret that is there already is not made, and is there afterwards. */
  lemma SecretStepKeeps(o: Oracle, p: Plan, s: Run, task: SecretTask, q: Event -> bool)
    requires WellFormed(p) && InPlace(p, s) && task.key in SecretKeys(p)
    requires s.halt == None && task.key !in s.w.home ==>
      MayMake(q, SecretManifest(o, s.w.clock, task), s.w.home)
    ensures var t := SecretStep(o, p, s, task);
      && MakesOnly(s, t, q) && InPlace(p, t) && s.w.home.Keys <= t.w.home.Keys
      && (s.halt.Some? ==> t == s)
      && (t.halt == None ==> s.halt == None && task.key in t.w.home)
      && (s.halt == None ==> s.w.clock < t.w.clock)
  {
    hide WellFormed, SecretKeys, Footprint, Proceeds, MayMake, CheckProblem, CreateStep, Quit, SecretManifest;
    hide MakesOnly;
    FootprintHas(p);
    FootprintIsLocal(p, task.key);
    var want := SecretManifest(o, s.w.clock, task);
    SecretManifestIsCredential(o, s.w.clock, task);
    PlainProceeds(o, p, s, want, HasKeys(NeededKeys(task)));
    if s.halt == None && task.key in s.w.home {
      FoundMakesNothing(o, p, s, want, NeededKeys(task), q);
    } else {
      EnsureSameMakes(o, p, s, want, HasKeys(NeededKeys(task)), q);
    }
    if s.halt == None { OneCallMore(o, p, s, want, HasKeys(NeededKeys(task))); }
  }

  lemma FoundMakesNothing(o: Oracle, p: Plan, s: Run, want: Manifest, keys: seq<string>, q: Event -> bool)
    requires s.halt == None && want.key in s.w.home && want.key.ns == s.w.ns
    ensures MakesOnly(s, EnsureSame(o, p, s, want, HasKeys(keys)).0, q)
  {
    hide CheckProblem, CreateStep;
  }

  lemma OneCallMore(o: Oracle, p: Plan, s: Run, want: Manifest, mode: Mode)
    requires s.halt == None
    ensures s.w.clock < EnsureSame(o, p, s, want, mode).0.w.clock
  {
    hide CheckProblem, Matches, CreateStep, ReplaceStep, Quit;
    var u := s.(w := Get(o, s.w, want.key).0);
    CreateStepMakes(o, p, u, want, u.w.home, e => true);
    ReplaceStepMakes(o, p, u, want, e => true);
    QuitMakes(o, u, Error, CannotFind(want.key), Failed, e => true);
  }

  lemma SecretStepGenerates(o: Oracle, p: Plan, s: Run, task: SecretTask, from: nat, to: nat, q: Event -> bool)
    requires WellFormed(p) && InPlace(p, s) && task.key in SecretKeys(p) && MayGenerate(q, o, p, from, to)
    requires from <= s.w.clock && (s.halt == None ==> s.w.clock < to)
    requires s.halt == None && task.key !in s.w.home ==>
      && (p.routes || task.key !in CertKeys(p))
      && task.withDbSecret == IsAppUser(p, task.key)
    ensures MakesOnly(s, SecretStep(o, p, s, task), q)
  {
    hide WellFormed, SecretKeys, CertKeys, SecretManifest, SecretStep, MakesOnly, IsCredential, IsCertSecret;
    SecretManifestIsCredential(o, s.w.clock, task);
    var want := SecretManifest(o, s.w.clock, task);
    if s.halt == None && task.key !in s.w.home {
      assert IsCredential(o, s.w.clock, want, IsAppUser(p, want.key));
      assert Generated(o, p, from, to, want);
      assert forall e: Event | IsMaking(e, want, s.w.home) :: SecretMade(o, p, from, to, e);
    }
    SecretStepKeeps(o, p, s, task, q);
  }

  lemma SecretsPartGenerates(o: Oracle, p: Plan, s: Run, from: nat, to: nat, q: Event -> bool)
    requires WellFormed(p) && InPlace(p, s) && MayGenerate(q, o, p, from, to)
    requires p.dbAdmin.withDbSecret == p.keycloakAdmin.withDbSecret == p.keycloakDb.withDbSecret == false
    requires !p.admin.withDbSecret && p.appUser.withDbSecret
    requires s.halt == None && !p.routes ==> CertKeys(p) <= s.w.home.Keys
    requires from <= s.w.clock && SecretsPart(o, p, s).w.clock <= to
    ensures MakesOnly(s, SecretsPart(o, p, s), q)
  {
    hide WellFormed, CertKeys, SecretManifest, SecretStep, MakesOnly, MayGenerate, InPlace;
    var all := (e: Event) => true;
    var s1 := SecretStep(o, p, s, p.dbAdmin);
    var s2 := SecretStep(o, p, s1, p.appUser);
    var s3 := SecretStep(o, p, s2, p.keycloakAdmin);
    var s4 := SecretStep(o, p, s3, p.keycloakDb);
    var s5 := SecretStep(o, p, s4, p.admin);
    SecretStepKeeps(o, p, s, p.dbAdmin, all);
    SecretStepKeeps(o, p, s1, p.appUser, all);
    SecretStepKeeps(o, p, s2, p.keycloakAdmin, all);
    SecretStepKeeps(o, p, s3, p.keycloakDb, all);
    SecretStepKeeps(o, p, s4, p.admin, all);
    SecretStepGenerates(o, p, s, p.dbAdmin, from, to, q);
    SecretStepGenerates(o, p, s1, p.appUser, from, to, q);
    SecretStepGenerates(o, p, s2, p.keycloakAdmin, from, to, q);
    SecretStepGenerates(o, p, s3, p.keycloakDb, from, to, q);
    SecretStepGenerates(o, p, s4, p.admin, from, to, q);
    MakesOn(s, s1, s2, q);
    MakesOn(s, s2, s3, q);
    MakesOn(s, s3, s4, q);
    MakesOn(s, s4, s5, q);
  }

  lemma SecretTasks(env: Env, cr: Horreum)
    ensures var p := PlanOf(env, cr);
      && p.dbAdmin.withDbSecret == p.keycloakAdmin.withDbSecret == p.keycloakDb.withDbSecret == false
      && !p.admin.withDbSecret && p.appUser.withDbSecret
  {
    hide PostgresPod, PostgresConfigMap, PostgresService, KeycloakPod, KeycloakService, KeycloakRoute;
    hide AppPod, AppService, AppRoute, UploadConfig;
    hide DbAdminSecret, AppUserSecret, KeycloakAdminSecret, KeycloakDbSecret, HorreumAdminSecret;
  }

  lemma NoSecretMade(p: Plan, g: Stages, e: Event)
    requires WellFormed(p) && e.Made? && e.what in Fixtures(p) + PodsOf(p, g)
    ensures !e.what.SecretM?
  {
    hide SecretsFormed, RoutesFormed;
  }

  lemma ExecuteGenerates(o: Oracle, p: Plan, s: Run)
    requires WellFormed(p) && InPlace(p, s) && s.halt == None
    requires p.dbAdmin.withDbSecret == p.keycloakAdmin.withDbSecret == p.keycloakDb.withDbSecret == false
    requires !p.admin.withDbSecret && p.appUser.withDbSecret
    ensures var t := Execute(o, p, s);
      && s.w.log <= t.w.log
      && forall i | |s.w.log| <= i < |t.w.log| :: SecretMade(o, p, s.w.clock, t.w.clock, t.w.log[i])
  {
    hide WellFormed, StagesOf, Execute, PodsOf, Fixtures, CertKeys, SameSecrets, Generated, IsCertSecret;
    hide TrustPart, SecretsPart, PostgresPart, BuildRoute, Prologue, KeycloakUrl, KeycloakPart, FindUrl;
    hide AppPart, Finish, AllThere, Proceeds;
    var g := StagesOf(o, p, s);
    var from, to := s.w.clock, Execute(o, p, s).w.clock;
    var q := (e: Event) => SecretMade(o, p, from, to, e);
    StageSteps(o, p, s);
    FirstStage(o, p, s);
    StagesHold(o, p, s);
    TrustPartProceeds(o, p, g.s0);
    ClocksGrow(o, p, s);
    BuiltIsRoute(o, p, g.s3, p.keycloakRoute);
    BuiltIsRoute(o, p, g.s6, p.appRoute);
    forall e: Event | e.Made? && e.what in Fixtures(p) + PodsOf(p, g) ensures q(e) { NoSecretMade(p, g, e); }
    assert MayMakeTrust(q, p);
    SecretsPartGenerates(o, p, g.s1, from, to, q);
    RunMakes(o, p, s, q);
  }

  /** Every secret that any run creates, whatever fails and wherever the run is cut
      short, is one of the chain of trust or holds exactly a user name, which is
      its own name, and a password drawn at a call of this run; that of the
      application's user holds a further one.  The live object holds the same. */
  lemma CreatedSecretsAreGenerated(o: Oracle, env: Env, w: World)
    requires Sound(w) && w.cr.Some?
    ensures var p, t := PlanOf(env, w.cr.value), Reconcile(o, env, w);
      && w.log <= t.w.log
      && forall i | |w.log| <= i < |t.w.log| :: var e := t.w.log[i];
           SecretMade(o, p, w.clock, t.w.clock, e) &&
           (e.Made? && e.what.SecretM? ==> e.result.Secret? && e.result.data == e.what.data)
  {
    hide PlanOf, Execute, WellFormed, SecretMade, Footprint, Grounded, Deletable;
    var cr := w.cr.value;
    var p, t := PlanOf(env, cr), Reconcile(o, env, w);
    Names.PlanIsWellFormed(env, cr);
    Names.PlanOwner(env, cr);
    SecretTasks(env, cr);
    RunsAreSafe(o, env, w);
    if o.reply(w.clock) == Ok {
      var s := Run(Tick(o, w), cr.status, [], None);
      ExecuteGenerates(o, p, s);
      forall i | |w.log| <= i < |t.w.log| ensures SecretMade(o, p, w.clock, t.w.clock, t.w.log[i]) {
        Later(o, p, s.w.clock, w.clock, t.w.clock, t.w.log[i]);
      }
    }
    forall i | |w.log| <= i < |t.w.log| && t.w.log[i].Made? && t.w.log[i].what.SecretM?
      ensures t.w.log[i].result.Secret? && t.w.log[i].result.data == t.w.log[i].what.data
    {
      assert Legal(p, Changes(w, t)[i - |w.log|]);
    }
  }

  lemma Later(o: Oracle, p: Plan, from: nat, earlier: nat, to: nat, e: Event)
    requires SecretMade(o, p, from, to, e) && earlier <= from
    ensures SecretMade(o, p, earlier, to, e)
  {
    hide IsCredential, IsCertSecret, CertKeys, SecretKeys;
  }
}
