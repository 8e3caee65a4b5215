/**
  What is in the routes that a run builds and creates (controllers/utils.go:80-148):
  certificate, key and CA certificate of the secret that the resource names, as it
  is in the cluster, under the termination that the route type asks for.
 */
module RouteSecurity {
  import opened Wrappers
  import opened Resources
  import opened HorreumApi
  import opened Matching
  import opened Worlds
  import opened Plans
  import opened Steps
  import opened Effects
  import opened Builders
  import opened Reconciling
  import opened Potentials
  import opened Safety
  import opened Histories
  import opened Readiness
  import opened Fixpoint
  import opened Making
  import Names

  /* The text of a secret's entry, empty when there is none. */
  predicate IsEntry(h: map<Key, Obj>, secret: Key, entry: string, text: Blob) {
    if secret in h && h[secret].Secret? && entry in h[secret].data then text == h[secret].data[entry]
    else text == Plain("")
  }

  /* The certificates of a named secret that is there, or none. */
  predicate Carries(h: map<Key, Obj>, ns: string, name: string, tls: TlsConfig) {
    var secret := Key(SecretKind, ns, name);
    if name == "" then tls.certificate == tls.privateKey == tls.caCertificate == Plain("")
    else
      && secret in h && IsEntry(h, secret, "tls.crt", tls.certificate)
      && IsEntry(h, secret, "tls.key", tls.privateKey) && IsEntry(h, secret, "ca.crt", tls.caCertificate)
  }

  /* Type and secret are those of the application's route, for both routes. */
  predicate Secures(cr: Horreum, h: map<Key, Obj>, tls: Option<TlsConfig>) {
    match cr.spec.route.kind
    case "http" => tls == None
    case "passthrough" => tls.Some? && tls.value.termination.PassthroughTermination? && Carries(h, cr.ns, "", tls.value)
    case "edge" =>
      tls.Some? && tls.value.termination.EdgeTermination? && Carries(h, cr.ns, cr.spec.route.tls, tls.value)
    case kind =>
      && (kind == "reencrypt" || kind == "")
      && tls.Some? && tls.value.termination.ReencryptTermination? && Carries(h, cr.ns, cr.spec.route.tls, tls.value)
  }

  /* A route that leads to the component's service, at the given host or at a
     subdomain for the cluster to complete. */
  predicate IsSpecified(cr: Horreum, route: RouteSpec, suffix: string, h: map<Key, Obj>, m: Manifest) {
    && m.RouteM? && m.key == Key(RouteKind, cr.ns, cr.name + suffix) && m.target == cr.name + suffix
    && m.host == route.host && m.subdomain == (if route.host == "" then cr.name + suffix else "")
    && Secures(cr, h, m.tls)
  }

  lemma ReadSecretCarries(o: Oracle, p: Plan, s: Run, task: RouteTask, termination: Termination)
    requires InPlace(p, s) && s.halt == None
    ensures var (t, data) := ReadTlsSecret(o, p, s, task);
      t.halt == None ==> Carries(s.w.home, p.owner.ns, task.tlsSecret, TlsFromSecret(termination, data))
  {
    hide Quit;
    if task.tlsSecret != "" {
      QuitKeeps(o, s.(w := Get(o, s.w, TlsKey(p, task)).0), Error, CannotFindSecret(task.reported), Failed);
    }
  }

  lemma ReadKeepsSecrets(o: Oracle, p: Plan, s: Run, task: RouteTask)
    ensures SameSecrets(s.w.home, ReadTlsSecret(o, p, s, task).0.w.home)
  {
    hide Quit;
    QuitKeeps(o, s.(w := Get(o, s.w, TlsKey(p, task)).0), Error, CannotFindSecret(task.reported), Failed);
  }

  lemma Terminations()
    ensures forall t: Termination, data: map<string, Blob> :: TlsFromSecret(t, data).termination == t
  {
  }

  lemma NothingCarried(h: map<Key, Obj>, ns: string)
    ensures Carries(h, ns, "", PASSTHROUGH)
  {
  }

  /** Whenever a run goes on with a route, for every oracle, it is the one that the
      resource specifies, with the texts of the secret as it is at that moment; and
      a run that goes on has a route if routes are available. */
  lemma BuiltRouteIsSpecified(
    o: Oracle, p: Plan, s: Run, cr: Horreum, route: RouteSpec, suffix: string, supported: bool)
    requires p.owner.ns == cr.ns && InPlace(p, s)
    ensures var (t, built) := BuildRoute(o, p, s, RouteTaskFor(cr, route, suffix, supported));
      && (built.Some? ==>
            supported && p.routes && t.halt == None && IsSpecified(cr, route, suffix, s.w.home, built.value))
      && (t.halt == None ==> built.Some? == p.routes)
      && SameSecrets(s.w.home, t.w.home)
  {
    hide ReadTlsSecret, TlsFromSecret, Carries;
    if s.halt == None {
      var task := RouteTaskFor(cr, route, suffix, supported);
      ReadSecretCarries(o, p, s, task, EdgeTermination);
      ReadSecretCarries(o, p, s, task, ReencryptTermination);
      ReadKeepsSecrets(o, p, s, task);
      Terminations();
      NothingCarried(s.w.home, cr.ns);
    }
  }

  lemma CarriesAlike(h: map<Key, Obj>, h': map<Key, Obj>, cr: Horreum, route: RouteSpec, suffix: string, m: Manifest)
    requires SameSecrets(h, h') && IsSpecified(cr, route, suffix, h, m)
    ensures IsSpecified(cr, route, suffix, h', m)
  {
  }

  lemma TasksOfPlan(env: Env, cr: Horreum)
    ensures var p := PlanOf(env, cr);
      && p.appRoute == RouteTaskFor(cr, cr.spec.route, "", true)
      && p.keycloakRoute ==
           RouteTaskFor(cr, cr.spec.keycloak.route, "-keycloak", ServesTls(cr.spec.keycloak.route.kind))
      && p.routes == env.routes
  {
    hide PostgresPod, PostgresConfigMap, PostgresService, KeycloakPod, KeycloakService, AppPod, AppService;
    hide UploadConfig, TlsModeOf;
    hide DbAdminSecret, AppUserSecret, KeycloakAdminSecret, KeycloakDbSecret, HorreumAdminSecret;
  }

  lemma EdgesOfPlan(env: Env, cr: Horreum)
    ensures var p := PlanOf(env, cr);
      && p.nodeHost == cr.spec.nodeHost && p.keycloakUri == cr.spec.keycloak.external.publicUri
      && (!p.hostMissing ==> cr.spec.nodeHost != "" || (p.appAccess != ByNodePort && p.keycloakAccess != ByNodePort))
      && p.appService.key == Key(ServiceKind, cr.ns, cr.name) && p.appRoute.key == Key(RouteKind, cr.ns, cr.name)
      && p.appAccess == AccessOf(cr.spec.serviceType, env.routes)
      && p.keycloakService.key == Key(ServiceKind, cr.ns, cr.name + "-keycloak")
      && p.keycloakRoute.key == Key(RouteKind, cr.ns, cr.name + "-keycloak")
      && p.keycloakAccess == AccessOf(cr.spec.keycloak.serviceType, env.routes)
  {
    hide PostgresPod, PostgresConfigMap, PostgresService, KeycloakPod, AppPod, UploadConfig, ServicePort;
    hide DbAdminSecret, AppUserSecret, KeycloakAdminSecret, KeycloakDbSecret, HorreumAdminSecret;
    assert cr.name + "" == cr.name;
  }

  /* A route of the resource, with what its secret held when it was created. */
  ghost predicate RouteIsOwn(cr: Horreum, e: Event) {
    e.Made? && e.what.RouteM? ==>
      || IsSpecified(cr, cr.spec.route, "", e.before, e.what)
      || (ServesTls(cr.spec.keycloak.route.kind) &&
          IsSpecified(cr, cr.spec.keycloak.route, "-keycloak", e.before, e.what))
  }

  lemma NoRouteMade(p: Plan, g: Stages, e: Event)
    requires WellFormed(p) && e.Made? && e.what in Fixtures(p) + PodsOf(p, g)
    ensures !e.what.RouteM?
  {
    hide SecretsFormed, RoutesFormed;
  }

  lemma ExecuteMakesOwnRoutes(o: Oracle, env: Env, cr: Horreum, s: Run)
    requires s.w.ns == cr.ns && s.halt == None
    ensures var t := Execute(o, PlanOf(env, cr), s);
      && s.w.log <= t.w.log
      && forall i | |s.w.log| <= i < |t.w.log| :: RouteIsOwn(cr, t.w.log[i])
  {
    hide WellFormed, StagesOf, Execute, PodsOf, Fixtures, CertKeys, SameSecrets, IsSpecified, PlanOf;
    hide TrustPart, SecretsPart, PostgresPart, BuildRoute, Prologue, KeycloakUrl, KeycloakPart, FindUrl;
    hide AppPart, Finish, AllThere, Proceeds, RouteTaskFor, ServesTls;
    var p := PlanOf(env, cr);
    Names.PlanIsWellFormed(env, cr);
    Names.PlanOwner(env, cr);
    TasksOfPlan(env, cr);
    var g := StagesOf(o, p, s);
    var q := (e: Event) => RouteIsOwn(cr, e);
    StageSteps(o, p, s);
    StagesHold(o, p, s);
    BuiltRouteIsSpecified(
      o, p, g.s3, cr, cr.spec.keycloak.route, "-keycloak", ServesTls(cr.spec.keycloak.route.kind));
    BuiltRouteIsSpecified(o, p, g.s6, cr, cr.spec.route, "", true);
    forall e: Event | e.Made? && e.what in Fixtures(p) + PodsOf(p, g) ensures q(e) { NoRouteMade(p, g, e); }
    forall e: Event | RouteMade(g, e) ensures q(e) {
      OwnRoute(cr, g, e);
    }
    assert MayMakeTrust(q, p);
    SecretsPartMakesSecrets(o, p, g.s1, q);
    RunMakes(o, p, s, q);
  }

  lemma SameSecretsChain(a: map<Key, Obj>, b: map<Key, Obj>, c: map<Key, Obj>)
    requires SameSecrets(a, b) && SameSecrets(b, c)
    ensures SameSecrets(a, c)
  {
  }

  lemma OwnRoute(cr: Horreum, g: Stages, e: Event)
    requires RouteMade(g, e) && SameSecrets(g.s3.w.home, g.s4.w.home) && SameSecrets(g.s6.w.home, g.s7.w.home)
    requires g.keycloakRoute.Some? ==>
      ServesTls(cr.spec.keycloak.route.kind) &&
      IsSpecified(cr, cr.spec.keycloak.route, "-keycloak", g.s3.w.home, g.keycloakRoute.value)
    requires g.appRoute.Some? ==> IsSpecified(cr, cr.spec.route, "", g.s6.w.home, g.appRoute.value)
    ensures RouteIsOwn(cr, e)
  {
    hide SameSecrets, IsSpecified, ServesTls;
    if g.s4.halt == None && g.keycloakRoute == Some(e.what) && SameSecrets(g.s4.w.home, e.before) {
      SameSecretsChain(g.s3.w.home, g.s4.w.home, e.before);
      CarriesAlike(g.s3.w.home, e.before, cr, cr.spec.keycloak.route, "-keycloak", e.what);
    } else {
      SameSecretsChain(g.s6.w.home, g.s7.w.home, e.before);
      CarriesAlike(g.s6.w.home, e.before, cr, cr.spec.route, "", e.what);
    }
  }

  /** Every route that any run creates, whatever fails and wherever the run is cut
      short, is one that the resource specifies and carries the texts that the
      named secret holds at the very call that creates it; so does the live object. */
  lemma CreatedRoutesAreSpecified(o: Oracle, env: Env, w: World)
    requires Sound(w) && w.cr.Some?
    ensures var t := Reconcile(o, env, w);
      && w.log <= t.w.log
      && forall i | |w.log| <= i < |t.w.log| :: var e := t.w.log[i];
           RouteIsOwn(w.cr.value, e) &&
           (e.Made? && e.what.RouteM? ==>
              e.result.Route? && e.result.tls == e.what.tls && e.result.target == e.what.target)
  {
    hide PlanOf, Execute, WellFormed, IsSpecified, Footprint, Grounded, Deletable, ServesTls, RouteIsOwn;
    var cr := w.cr.value;
    var p, t := PlanOf(env, cr), Reconcile(o, env, w);
    RunsAreSafe(o, env, w);
    if o.reply(w.clock) == Ok {
      ExecuteMakesOwnRoutes(o, env, cr, Run(Tick(o, w), cr.status, [], None));
    }
    forall i | |w.log| <= i < |t.w.log| && t.w.log[i].Made? && t.w.log[i].what.RouteM?
      ensures var e := t.w.log[i]; e.result.Route? && e.result.tls == e.what.tls && e.result.target == e.what.target
    {
      assert Legal(p, Changes(w, t)[i - |w.log|]);
    }
  }

  // Routes of a resource that is Ready

  lemma WantedIsSpecified(
    p: Plan, cr: Horreum, h: map<Key, Obj>, route: RouteSpec, suffix: string, supported: bool)
    requires p.owner.ns == cr.ns
    ensures var want := RouteWanted(p, RouteTaskFor(cr, route, suffix, supported), h);
      want.Some? ==> IsSpecified(cr, route, suffix, h, want.value)
  {
  }

  predicate IsRouted(env: Env, serviceType: string) {
    env.routes && serviceType != "NodePort" && serviceType != "LoadBalancer"
  }

  /* A live route at the given host, secured as specified; where no host is given
     only the subdomain is looked at. */
  predicate ServesRoute(cr: Horreum, route: RouteSpec, suffix: string, h: map<Key, Obj>) {
    var k := Key(RouteKind, cr.ns, cr.name + suffix);
    && k in h && h[k].Route?
    && if route.host == "" then h[k].subdomain == cr.name + suffix
       else h[k].host == route.host && Secures(cr, h, h[k].tls)
  }

  lemma FineRouteServes(
    p: Plan, cr: Horreum, h: map<Key, Obj>, route: RouteSpec, suffix: string, supported: bool)
    requires p.owner.ns == cr.ns
    requires var want := RouteWanted(p, RouteTaskFor(cr, route, suffix, supported), h);
      want.Some? && Fine(h, want.value, SameRoute)
    ensures ServesRoute(cr, route, suffix, h)
  {
    hide RouteWanted, RouteTaskFor, Secures, CheckProblem;
    WantedIsSpecified(p, cr, h, route, suffix, supported);
  }

  /** After a reconciliation that ended Ready the live routes of a resource that
      gives their hosts serve what the named secret holds now, under the specified
      termination, also after an edit of the resource or of the secret. */
  lemma ReadyRoutesServe(o: Oracle, env: Env, w: World)
    requires Sound(w) && w.cr.Some?
    requires Reconcile(o, env, w).halt == Some(Finished) && Reconcile(o, env, w).st.phase == Ready
    ensures var cr, h := w.cr.value, Reconcile(o, env, w).w.home;
      && (IsRouted(env, cr.spec.serviceType) ==> ServesRoute(cr, cr.spec.route, "", h))
      && (IsRouted(env, cr.spec.keycloak.serviceType) && cr.spec.keycloak.external.publicUri == "" ==>
            ServesRoute(cr, cr.spec.keycloak.route, "-keycloak", h))
  {
    hide Reconcile, PlanOf, TrustFine, SecretsFine, PostgresFine, Buildable, UrlNow, Fine, RouteWanted, RouteTaskFor;
    hide ServesRoute;
    var cr := w.cr.value;
    var p, h := PlanOf(env, cr), Reconcile(o, env, w).w.home;
    ReadyMeansWanted(o, env, w);
    TasksOfPlan(env, cr);
    Names.PlanOwner(env, cr);
    EdgesOfPlan(env, cr);
    if p.appAccess.ByRoute? { FineRouteServes(p, cr, h, cr.spec.route, "", true); }
    if p.keycloakUri == "" && p.keycloakAccess.ByRoute? {
      FineRouteServes(p, cr, h, cr.spec.keycloak.route, "-keycloak", ServesTls(cr.spec.keycloak.route.kind));
    }
  }
}
