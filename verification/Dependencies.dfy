/**
  Dependency closure: when a pod is created, what its environment and volumes
  name is there already.
 */
module Dependencies {
  import opened Wrappers
  import opened Resources
  import opened HorreumApi
  import opened Worlds
  import opened Plans
  import opened Effects
  import opened Builders
  import opened Reconciling
  import opened Histories
  import opened Matching
  import opened Readiness

  /* The secrets that pods refer to and the operator does not provide: with
     routes the certificates are made by the platform, and for a passthrough
     route the user names the secret. */
  function Loose(env: Env, cr: Horreum): set<Key> {
    var app, keycloak := cr.spec.route.kind, cr.spec.keycloak.route.kind;
    (if env.routes || keycloak == "passthrough" then {SecretKey(cr, KeycloakCertSecret(cr))} else {}) +
    (if ServesTls(app) && (env.routes || app == "passthrough") then {SecretKey(cr, AppCertSecret(cr))} else {})
  }

  function SecretsOf(cr: Horreum): set<string> {
    {DbAdminSecret(cr), AppUserSecret(cr), KeycloakAdminSecret(cr), KeycloakDbSecret(cr), HorreumAdminSecret(cr)}
  }

  /* An environment refers only to the operator's secrets, and to keys in them
     that the operator checks. */
  predicate Refers(env: seq<EnvVar>, cr: Horreum) {
    forall i | 0 <= i < |env| && env[i].FromSecret? ::
      && env[i].secret in SecretsOf(cr)
      && (env[i].key in {USERNAME, PASSWORD} || (env[i].secret == AppUserSecret(cr) && env[i].key == DBSECRET))
  }

  lemma NamedSecrets(ns: string, env: seq<EnvVar>, cr: Horreum, k: Key)
    requires Refers(env, cr) && k in EnvRefs(ns, env)
    ensures k.kind == SecretKind && k.ns == ns && k.name in SecretsOf(cr)
  {
    hide SecretsOf;
  }

  lemma AppNames(cr: Horreum, u: string, v: string)
    ensures Refers(AppEnv(cr, u, v), cr) && Refers(AppInitEnv(cr, v), cr)
  {
    hide DbAdminSecret, AppUserSecret, KeycloakAdminSecret, KeycloakDbSecret, HorreumAdminSecret;
    hide DbUrl, KeycloakInternalUrl, AppInternalUrl, CaCertArg, ServesTls;
  }

  lemma KeycloakNames(cr: Horreum, host: string)
    ensures Refers(KeycloakEnv(cr, host), cr)
  {
    hide DbAdminSecret, AppUserSecret, KeycloakAdminSecret, KeycloakDbSecret, HorreumAdminSecret;
    hide WithDefault, WithDefaultInt, DbDefaultHost;
  }

  lemma PostgresNames(cr: Horreum, image: string)
    ensures Refers(PostgresEnv(cr, image), cr)
  {
    hide DbAdminSecret, AppUserSecret, KeycloakAdminSecret, KeycloakDbSecret, HorreumAdminSecret;
    hide WithDefault, IsUpstreamPostgres;
  }

  lemma SecretsAreProvided(env: Env, cr: Horreum, k: Key)
    requires k.kind == SecretKind && k.ns == cr.ns && k.name in SecretsOf(cr)
    ensures k in Provided(PlanFor(env, cr))
  {
    hide PostgresPod, PostgresConfigMap, PostgresService, KeycloakPod, KeycloakService, KeycloakRoute;
    hide AppPod, AppService, AppRoute, UploadConfig;
    hide DbAdminSecret, AppUserSecret, KeycloakAdminSecret, KeycloakDbSecret, HorreumAdminSecret;
  }

  lemma CertsAreProvided(env: Env, cr: Horreum)
    ensures var p := PlanFor(env, cr);
      && Key(ConfigMapKind, cr.ns, SERVICE_CA) in Provided(p)
      && (!env.routes ==>
            SecretKey(cr, cr.name + "-app-certs") in Provided(p) &&
            SecretKey(cr, cr.name + "-keycloak-certs") in Provided(p))
  {
    hide PostgresPod, PostgresConfigMap, PostgresService, KeycloakPod, KeycloakService, KeycloakRoute;
    hide AppPod, AppService, AppRoute, UploadConfig;
    hide DbAdminSecret, AppUserSecret, KeycloakAdminSecret, KeycloakDbSecret, HorreumAdminSecret;
  }

  lemma AppRefs(env: Env, cr: Horreum, u: string, v: string, k: Key)
    requires k in PodRefs(cr.ns, AppPodSpec(cr, u, v))
    ensures k in Provided(PlanFor(env, cr)) + Loose(env, cr)
  {
    hide AppEnv, AppInitEnv, EnvRefs, Provided, PlanFor, SecretsOf, AppMounts, AppImage;
    AppNames(cr, u, v);
    CertsAreProvided(env, cr);
    var spec := AppPodSpec(cr, u, v);
    if k in VolumeRefs(cr.ns, spec.volumes) {
    } else if k in EnvRefs(cr.ns, AppEnv(cr, u, v)) {
      NamedSecrets(cr.ns, AppEnv(cr, u, v), cr, k);
      SecretsAreProvided(env, cr, k);
    } else {
      NamedSecrets(cr.ns, AppInitEnv(cr, v), cr, k);
      SecretsAreProvided(env, cr, k);
    }
  }

  lemma KeycloakRefs(env: Env, cr: Horreum, host: string, k: Key)
    requires k in PodRefs(cr.ns, KeycloakPodSpec(cr, host))
    ensures k in Provided(PlanFor(env, cr)) + Loose(env, cr)
  {
    hide KeycloakEnv, EnvRefs, Provided, PlanFor, SecretsOf, WithDefault;
    KeycloakNames(cr, host);
    CertsAreProvided(env, cr);
    if k !in VolumeRefs(cr.ns, KeycloakPodSpec(cr, host).volumes) {
      NamedSecrets(cr.ns, KeycloakEnv(cr, host), cr, k);
      SecretsAreProvided(env, cr, k);
    }
  }

  lemma PostgresRefs(env: Env, cr: Horreum, k: Key)
    requires k in PodRefs(cr.ns, PostgresPodSpec(cr, env.redHat))
    ensures k in Provided(PlanFor(env, cr)) + {PostgresConfigMap(cr).key}
  {
    hide PostgresEnv, EnvRefs, Provided, PlanFor, SecretsOf, WithDefault, DbImage, PostgresUser, InitDir;
    PostgresNames(cr, DbImage(cr, env.redHat));
    if k !in VolumeRefs(cr.ns, PostgresPodSpec(cr, env.redHat).volumes) {
      NoRefs(cr.ns);
      NamedSecrets(cr.ns, PostgresEnv(cr, DbImage(cr, env.redHat)), cr, k);
      SecretsAreProvided(env, cr, k);
    }
  }

  lemma NoRefs(ns: string)
    ensures EnvRefs(ns, []) == {}
  {
  }

  lemma PodsOfPlan(env: Env, cr: Horreum)
    ensures var p := PlanFor(env, cr);
      && p.owner.ns == cr.ns && p.postgresPod == PostgresPod(cr, env.redHat) && p.postgresMap == PostgresConfigMap(cr)
      && (forall u: string :: p.keycloakPod(u) == KeycloakPod(env, cr, u))
      && (forall u: string, v: string :: p.appPod(u, v) == AppPod(cr, u, v))
  {
    hide PostgresPod, PostgresConfigMap, PostgresService, KeycloakPod, KeycloakService, KeycloakRoute;
    hide AppPod, AppService, AppRoute, UploadConfig;
    hide DbAdminSecret, AppUserSecret, KeycloakAdminSecret, KeycloakDbSecret, HorreumAdminSecret;
  }

  /* Whatever pod the operator asks for, it refers to nothing else. */
  lemma RefsAreProvided(env: Env, cr: Horreum, m: Manifest, k: Key)
    requires IsPodOf(PlanFor(env, cr), m) && m.PodM? && k in PodRefs(cr.ns, m.spec)
    ensures k in ProvidedFor(PlanFor(env, cr), m.key) + Loose(env, cr)
  {
    hide PodRefs, PlanFor, Provided, Loose, PostgresPodSpec, KeycloakPodSpec, AppPodSpec, PostgresConfigMap;
    var p := PlanFor(env, cr);
    PodsOfPlan(env, cr);
    if m == p.postgresPod {
      PostgresRefs(env, cr, k);
    } else if exists u: string :: p.keycloakPod(u) == Some(m) {
      var u :| p.keycloakPod(u) == Some(m);
      KeycloakRefs(env, cr, env.parseHost(u).value, k);
    } else {
      var u, v :| p.appPod(u, v) == m;
      AppRefs(env, cr, u, v, k);
    }
  }

  /* If the change creates a pod, all it refers to was there, with exceptions. */
  predicate Closed(ns: string, e: Event, loose: set<Key>) {
    e.Made? && e.what.PodM? ==> forall k | k in PodRefs(ns, e.what.spec) :: k in e.before || k in loose
  }

  lemma LegalIsClosed(env: Env, cr: Horreum, e: Event)
    requires Legal(PlanFor(env, cr), e)
    ensures Closed(cr.ns, e, Loose(env, cr))
  {
    hide PodRefs, PlanFor, ProvidedFor, Represents, Footprint, IsPodOf, Loose;
    PodsOfPlan(env, cr);
    if e.Made? && e.what.PodM? {
      forall k | k in PodRefs(cr.ns, e.what.spec) ensures k in e.before || k in Loose(env, cr) {
        RefsAreProvided(env, cr, e.what, k);
      }
    }
  }

  /** Dependency closure: every pod any run creates finds all secrets and config
      maps it names, at the very call that creates it, except for certificate
      secrets that the operator does not make. */
  lemma PodsFindTheirReferences(o: Oracle, env: Env, w: World)
    requires Sound(w) && w.cr.Some?
    ensures var t := Reconcile(o, env, w);
      w.log <= t.w.log && forall i | 0 <= i < |Changes(w, t)| :: Closed(w.ns, Changes(w, t)[i], Loose(env, w.cr.value))
  {
    hide Reconcile, PlanFor, Loose, Legal, Closed;
    RunsAreSafe(o, env, w);
    var cr := w.cr.value;
    var es := Changes(w, Reconcile(o, env, w));
    LooseIgnoresStatus(env, cr);
    forall i | 0 <= i < |es| ensures Closed(w.ns, es[i], Loose(env, cr)) {
      assert Legal(PlanOf(env, cr), es[i]);
      LegalIsClosed(env, cr.(status := NO_STATUS), es[i]);
    }
  }

  lemma LooseIgnoresStatus(env: Env, cr: Horreum)
    ensures Loose(env, cr.(status := NO_STATUS)) == Loose(env, cr)
  {
  }

  /** Without routes, and without passthrough, there is no exception. */
  lemma NothingIsLoose(env: Env, cr: Horreum)
    ensures !env.routes && cr.spec.keycloak.route.kind != "passthrough" && cr.spec.route.kind != "passthrough" <==>
      Loose(env, cr) == {}
  {
  }

  // What Ready says about references

  /* Every secret key an environment refers to exists. */
  predicate Resolves(h: map<Key, Obj>, ns: string, env: seq<EnvVar>) {
    forall i | 0 <= i < |env| && env[i].FromSecret? ::
      var k := Key(SecretKind, ns, env[i].secret);
      k in h && h[k].Secret? && env[i].key in h[k].data
  }

  lemma FineSecretHas(h: map<Key, Obj>, task: SecretTask)
    requires SecretFine(h, task)
    ensures h[task.key].Secret? && USERNAME in h[task.key].data && PASSWORD in h[task.key].data
    ensures task.withDbSecret ==> DBSECRET in h[task.key].data
  {
    hide SecretProblem;
    var keys := NeededKeys(task);
    SecretProblemMeaning(task.key, keys, h[task.key]);
    assert keys[0] in h[task.key].data && keys[1] in h[task.key].data;
    if task.withDbSecret { assert keys[2] in h[task.key].data; }
  }

  lemma TasksOfPlan(env: Env, cr: Horreum)
    ensures var p := PlanFor(env, cr);
      && p.dbAdmin == SecretTask(SecretKey(cr, DbAdminSecret(cr)), false)
      && p.appUser == SecretTask(SecretKey(cr, AppUserSecret(cr)), true)
      && p.keycloakAdmin == SecretTask(SecretKey(cr, KeycloakAdminSecret(cr)), false)
      && p.keycloakDb == SecretTask(SecretKey(cr, KeycloakDbSecret(cr)), false)
      && p.admin == SecretTask(SecretKey(cr, HorreumAdminSecret(cr)), false)
  {
    hide PostgresPod, PostgresConfigMap, PostgresService, KeycloakPod, KeycloakService, KeycloakRoute;
    hide AppPod, AppService, AppRoute, UploadConfig;
    hide DbAdminSecret, AppUserSecret, KeycloakAdminSecret, KeycloakDbSecret, HorreumAdminSecret;
  }

  lemma ReferencesResolve(env: Env, cr: Horreum, h: map<Key, Obj>, vars: seq<EnvVar>)
    requires SecretsFine(PlanFor(env, cr), h) && Refers(vars, cr)
    ensures Resolves(h, cr.ns, vars)
  {
    hide PlanFor, SecretFine;
    hide DbAdminSecret, AppUserSecret, KeycloakAdminSecret, KeycloakDbSecret, HorreumAdminSecret;
    var p := PlanFor(env, cr);
    TasksOfPlan(env, cr);
    FineSecretHas(h, p.dbAdmin);
    FineSecretHas(h, p.appUser);
    FineSecretHas(h, p.keycloakAdmin);
    FineSecretHas(h, p.keycloakDb);
    FineSecretHas(h, p.admin);
    SecretsThere(h, p);
  }

  lemma SecretsThere(h: map<Key, Obj>, p: Plan)
    requires SecretsFine(p, h)
    ensures SecretKeys(p) <= h.Keys
  {
    hide SecretProblem;
  }

  /** When the objects are as wanted, which is what Ready stands for, every
      secret key that a container of the three pods refers to exists. */
  lemma WantedResolves(env: Env, cr: Horreum, h: map<Key, Obj>)
    requires AsWanted(PlanFor(env, cr), h)
    ensures forall u: string, v: string :: Resolves(h, cr.ns, AppEnv(cr, u, v)) && Resolves(h, cr.ns, AppInitEnv(cr, v))
    ensures forall host: string :: Resolves(h, cr.ns, KeycloakEnv(cr, host))
    ensures Resolves(h, cr.ns, PostgresEnv(cr, DbImage(cr, env.redHat)))
  {
    hide PlanFor, SecretsFine, Resolves, AppEnv, AppInitEnv, KeycloakEnv, PostgresEnv, DbImage, Refers;
    hide TrustFine, PostgresFine, Buildable, KeycloakFine, AppFine;
    forall u: string, v: string ensures Resolves(h, cr.ns, AppEnv(cr, u, v)) && Resolves(h, cr.ns, AppInitEnv(cr, v)) {
      AppNames(cr, u, v);
      ReferencesResolve(env, cr, h, AppEnv(cr, u, v));
      ReferencesResolve(env, cr, h, AppInitEnv(cr, v));
    }
    forall host: string ensures Resolves(h, cr.ns, KeycloakEnv(cr, host)) {
      KeycloakNames(cr, host);
      ReferencesResolve(env, cr, h, KeycloakEnv(cr, host));
    }
    PostgresNames(cr, DbImage(cr, env.redHat));
    ReferencesResolve(env, cr, h, PostgresEnv(cr, DbImage(cr, env.redHat)));
  }
}
