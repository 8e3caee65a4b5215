/**
  Which objects there are when a resource is Ready, in terms of its spec
  (controllers/horreum_controller.go:109-293).
 */
module ReadyObjects {
  import opened Wrappers
  import opened Resources
  import opened HorreumApi
  import opened Matching
  import opened Worlds
  import opened Plans
  import opened Steps
  import opened Builders
  import opened Reconciling
  import opened Potentials
  import opened Readiness
  import opened Fixpoint
  import opened Credentials
  import opened RouteSecurity
  import Names

  /* The objects of one kind with these names. */
  function Keyed(kind: Kind, ns: string, names: set<string>): set<Key> {
    set name | name in names :: Key(kind, ns, name)
  }

  /* The secrets that a resource uses, its own certificates only without routes. */
  function SecretsFor(env: Env, cr: Horreum): set<string> {
    { SecretName(cr, cr.spec.postgres.adminSecret, "-db-admin"), SecretName(cr, cr.spec.database.secret, "-app"),
      SecretName(cr, cr.spec.keycloak.adminSecret, "-keycloak-admin"),
      SecretName(cr, cr.spec.keycloak.database.secret, "-keycloak-db"),
      SecretName(cr, cr.spec.adminSecret, "-admin")} +
    (if env.routes then {} else {cr.name + "-ca-certs", cr.name + "-app-certs", cr.name + "-keycloak-certs"})
  }

  predicate HasPostgres(cr: Horreum) {
    cr.spec.postgres.enabled != Some(false)
  }

  predicate HasKeycloak(cr: Horreum) {
    cr.spec.keycloak.external.publicUri == ""
  }

  /* What is there, and what is not. */
  predicate InOrder(env: Env, cr: Horreum, h: map<Key, Obj>) {
    var n := cr.name;
    && Keyed(SecretKind, cr.ns, SecretsFor(env, cr)) <= h.Keys
    && Key(ConfigMapKind, cr.ns, "service-ca.crt") in h && Key(ConfigMapKind, cr.ns, n + "-hyperfoil-upload") in h
    && Key(PodKind, cr.ns, n + "-app") in h && Key(ServiceKind, cr.ns, n) in h
    && (IsRouted(env, cr.spec.serviceType) ==> Key(RouteKind, cr.ns, n) in h)
    && (HasPostgres(cr) ==> Key(ConfigMapKind, cr.ns, n + "-postgresql-start") in h)
    && (HasPostgres(cr) <==> Key(PodKind, cr.ns, n + "-db") in h)
    && (HasPostgres(cr) <==> Key(ServiceKind, cr.ns, n + "-db") in h)
    && (HasKeycloak(cr) <==> Key(PodKind, cr.ns, n + "-keycloak") in h)
    && (HasKeycloak(cr) <==> Key(ServiceKind, cr.ns, n + "-keycloak") in h)
    && (HasKeycloak(cr) && IsRouted(env, cr.spec.keycloak.serviceType) ==> Key(RouteKind, cr.ns, n + "-keycloak") in h)
    && (!HasKeycloak(cr) && env.routes ==> Key(RouteKind, cr.ns, n + "-keycloak") !in h)
  }

  lemma SecretsOfPlan(env: Env, cr: Horreum)
    ensures var p := PlanOf(env, cr);
      Keyed(SecretKind, cr.ns, SecretsFor(env, cr)) == SecretKeys(p) + (if env.routes then {} else CertKeys(p))
  {
    hide PostgresPod, PostgresConfigMap, PostgresService, KeycloakPod, KeycloakService, KeycloakRoute;
    hide AppPod, AppService, AppRoute, UploadConfig;
    hide DbAdminSecret, AppUserSecret, KeycloakAdminSecret, KeycloakDbSecret, HorreumAdminSecret, SecretName;
    SecretNames(cr);
    SecretNames(cr.(status := NO_STATUS));
    NamesIgnoreStatus(cr);
    var p := PlanOf(env, cr);
    var names, keys := SecretsFor(env, cr), SecretKeys(p) + (if env.routes then {} else CertKeys(p));
    forall k | k in keys ensures k in Keyed(SecretKind, cr.ns, names) { assert k.name in names; }
  }

  lemma NamesIgnoreStatus(cr: Horreum)
    ensures forall given: string, suffix: string ::
      SecretName(cr.(status := NO_STATUS), given, suffix) == SecretName(cr, given, suffix)
  {
  }

  lemma SwitchesOfPlan(env: Env, cr: Horreum)
    ensures var p := PlanOf(env, cr);
      && p.routes == env.routes && p.postgres == HasPostgres(cr) && (p.keycloakUri == "") == HasKeycloak(cr)
      && p.trustKey == Key(ConfigMapKind, cr.ns, "service-ca.crt")
      && p.upload.key == Key(ConfigMapKind, cr.ns, cr.name + "-hyperfoil-upload")
      && p.postgresMap.key == Key(ConfigMapKind, cr.ns, cr.name + "-postgresql-start")
      && p.postgresPod.key == Key(PodKind, cr.ns, cr.name + "-db")
      && p.postgresService.key == Key(ServiceKind, cr.ns, cr.name + "-db")
      && p.keycloakPodKey == Key(PodKind, cr.ns, cr.name + "-keycloak")
      && p.appPodKey == Key(PodKind, cr.ns, cr.name + "-app")
  {
    hide PostgresPodSpec, KeycloakPod, KeycloakService, KeycloakRoute, AppPod, AppService, AppRoute;
    hide DbAdminSecret, AppUserSecret, KeycloakAdminSecret, KeycloakDbSecret, HorreumAdminSecret;
    hide KeycloakInternalUrl, AppInternalUrl;
  }

  lemma WantedKeys(p: Plan, h: map<Key, Obj>)
    requires WellFormed(p) && AsWanted(p, h)
    ensures SecretKeys(p) <= h.Keys && (!p.routes ==> CertKeys(p) <= h.Keys)
    ensures p.trustKey in h && p.upload.key in h && p.appPodKey in h && p.appService.key in h
    ensures p.appAccess.ByRoute? ==> p.appRoute.key in h
    ensures p.postgres ==> p.postgresMap.key in h
    ensures p.postgres <==> p.postgresPod.key in h
    ensures p.postgres <==> p.postgresService.key in h
    ensures p.keycloakUri == "" <==> p.keycloakPodKey in h
    ensures p.keycloakUri == "" <==> p.keycloakService.key in h
    ensures p.keycloakUri == "" && p.keycloakAccess.ByRoute? ==> p.keycloakRoute.key in h
    ensures p.keycloakUri != "" && p.routes ==> p.keycloakRoute.key !in h
  {
    hide Buildable, RouteUrl, NodeUrl, SecretsFormed, MapsFormed, ServicesFormed, RoutesFormed;
    hide Matches, CheckProblem, RouteWanted, SecretFine, ReadAuthority;
    WantedSecrets(p, h);
  }

  lemma WantedSecrets(p: Plan, h: map<Key, Obj>)
    requires SecretsFine(p, h)
    ensures SecretKeys(p) <= h.Keys
  {
    hide SecretProblem;
  }

  /** After a reconciliation that ended Ready: the secrets, postgres if and only if
      it is not disabled, Keycloak if and only if it is not external, the
      application, and the routes where they are asked for. */
  lemma ReadyIsInOrder(o: Oracle, env: Env, w: World)
    requires Sound(w) && w.cr.Some?
    requires Reconcile(o, env, w).halt == Some(Finished) && Reconcile(o, env, w).st.phase == Ready
    ensures InOrder(env, w.cr.value, Reconcile(o, env, w).w.home)
  {
    hide Reconcile, PlanOf, AsWanted, WellFormed, SecretKeys, CertKeys, SecretsFor, Keyed;
    var cr, h := w.cr.value, Reconcile(o, env, w).w.home;
    ReadyMeansWanted(o, env, w);
    Names.PlanIsWellFormed(env, cr);
    WantedKeys(PlanOf(env, cr), h);
    SecretsOfPlan(env, cr);
    SwitchesOfPlan(env, cr);
    EdgesOfPlan(env, cr);
  }
}
