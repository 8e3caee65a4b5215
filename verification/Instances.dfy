/**
  Instances of the results on rounds: concrete resources, a parser as strict as
  a URL demands, and a server with concrete answers.  They show that what the
  results ask for can be met.
 */
module Instances {
  import opened Wrappers
  import opened Resources
  import opened HorreumApi
  import opened Matching
  import opened Worlds
  import opened Plans
  import opened Steps
  import opened Effects
  import opened Builders
  import opened Reconciling
  import opened Potentials
  import opened Safety
  import opened Histories
  import opened WorkingRuns
  import opened Rounds
  import opened Panics
  import TrustChain
  import Names

  function HostPart(rest: string): string {
    if rest == "" || rest[0] == '/' then "" else [rest[0]] + HostPart(rest[1..])
  }

  /* A parser of absolute http and https URLs: it gives what is between the
     scheme and the path, and refuses everything else. */
  function ParsedHost(url: string): Option<string> {
    var rest := if "https://" <= url then url[8..] else if "http://" <= url then url[7..] else "";
    if HostPart(rest) == "" then None else Some(HostPart(rest))
  }

  lemma ParserIsStrict()
    ensures ParsedHost("x") == None && ParsedHost("") == None && ParsedHost("https:///path") == None
  {
    assert "x"[0] != 'h';
    assert "https:///path"[8..] == "/path";
  }

  lemma ParsesHost(scheme: string, host: string, rest: string)
    requires scheme == "https://" || scheme == "http://"
    requires host != "" && host[0] != '/'
    ensures ParsedHost(scheme + (host + rest)).Some?
  {
    var url := scheme + (host + rest);
    assert url[|scheme|..] == host + rest;
    if scheme == "http://" {
      assert url[4] == ':';
      assert "https://"[4] == 's';
    }
  }

  /* Without routes and with node ports. */
  predicate Modest(cr: Horreum) {
    && cr.spec.nodeHost != "" && cr.spec.nodeHost[0] != '/'
    && cr.spec.serviceType == "" && cr.spec.keycloak.serviceType == ""
    && cr.spec.keycloak.external.publicUri == "" && cr.spec.keycloak.route.kind == ""
  }

  lemma NodeUrlsParse(host: string, port: nat)
    requires host != "" && host[0] != '/'
    ensures ParsedHost(NodeUrl(host, port)).Some?
  {
    hide ParsedHost, Decimal;
    var rest := ":" + Decimal(port);
    ParsesHost("https://", host, rest);
    assert NodeUrl(host, port) == "https://" + (host + rest);
  }

  lemma ModestPlan(env: Env, cr: Horreum)
    requires !env.routes && env.parseHost == ParsedHost && Modest(cr)
    ensures var p := PlanOf(env, cr);
      && !p.hostMissing && !p.routes && p.keycloakUri == ""
      && p.appAccess == ByNodePort && p.keycloakAccess == ByNodePort
      && p.keycloakRoute.supported && p.appRoute.supported && p.nodeHost == cr.spec.nodeHost
      && forall u: string :: p.keycloakPod(u).Some? == ParsedHost(u).Some?
  {
    hide PostgresPod, PostgresConfigMap, PostgresService, KeycloakPodSpec, KeycloakService;
    hide AppPod, AppService, UploadConfig, ParsedHost;
    hide DbAdminSecret, AppUserSecret, KeycloakAdminSecret, KeycloakDbSecret, HorreumAdminSecret;
  }

  /** An instance: with a parser that is as strict as a URL demands, an empty
      namespace, and a server that never fails, one run makes everything such a
      resource asks for. */
  lemma EmptyNamespaceIsFilled(redHat: bool, cr: Horreum)
    requires Modest(cr)
    ensures var env := Env(false, redHat, ParsedHost);
      var w := World(cr.ns, map[], map[], Some(cr), 0, []);
      && Potential(PlanOf(env, cr), w.home) > 0
      && Potential(PlanOf(env, cr), Reconcile(TrustChain.STEADY, env, w).w.home) == 0
  {
    hide Reconcile, PlanOf, Potential, ParsedHost;
    var env := Env(false, redHat, ParsedHost);
    var w := World(cr.ns, map[], map[], Some(cr), 0, []);
    var p := PlanOf(env, cr);
    ModestPlan(env, cr);
    forall port: nat | port != 0 ensures p.keycloakPod(NodeUrl(p.nodeHost, port)).Some? {
      NodeUrlsParse(p.nodeHost, port);
    }
    assert Works(TrustChain.STEADY);
    OneRound(TrustChain.STEADY, env, cr, w);
    Names.PlanIsWellFormed(env, cr);
    NoPodCosts(p, w.home);
  }

  lemma ExternalPlan(env: Env, cr: Horreum)
    requires !env.routes && env.parseHost == ParsedHost && cr.spec.nodeHost != ""
    requires cr.spec.keycloak.external.publicUri == "x" && cr.spec.keycloak.route.kind == ""
    ensures var p := PlanOf(env, cr);
      && !p.hostMissing && !p.routes && p.keycloakUri == "x" && p.keycloakRoute.supported && p.keycloakPod("x") == None
  {
    hide PostgresPod, PostgresConfigMap, PostgresService, KeycloakPodSpec, KeycloakService;
    hide AppPod, AppService, UploadConfig, ParsedHost;
    hide DbAdminSecret, AppUserSecret, KeycloakAdminSecret, KeycloakDbSecret, HorreumAdminSecret;
    ParserIsStrict();
  }

  /** An instance of the panic: an external URI that does not parse, although no
      pod of Keycloak is asked for, and a server that never fails. */
  lemma UnparsableUriPanics(redHat: bool, cr: Horreum)
    requires cr.spec.nodeHost != ""
    requires cr.spec.keycloak.external.publicUri == "x" && cr.spec.keycloak.route.kind == ""
    ensures var env := Env(false, redHat, ParsedHost);
      var w := World(cr.ns, map[], map[], Some(cr), 0, []);
      Reconcile(TrustChain.STEADY, env, w).halt == Some(Panicked(NilPod))
  {
    hide Execute, PlanOf, ParsedHost, WellFormed;
    var env := Env(false, redHat, ParsedHost);
    var w := World(cr.ns, map[], map[], Some(cr), 0, []);
    ExternalPlan(env, cr);
    Names.PlanIsWellFormed(env, cr);
    Names.PlanOwner(env, cr);
    assert Works(TrustChain.STEADY);
    var s := Run(Tick(TrustChain.STEADY, w), cr.status, [], None);
    KeycloakPanicsIff(TrustChain.STEADY, PlanOf(env, cr), s);
  }

  // With routes

  /* With routes and nothing special. */
  predicate ModestRoutes(cr: Horreum) {
    && cr.spec.serviceType == "" && cr.spec.keycloak.serviceType == ""
    && cr.spec.keycloak.external.publicUri == "" && cr.spec.keycloak.route.kind == ""
    && cr.spec.route.kind == "" && cr.spec.route.tls == ""
  }

  lemma ModestRoutesPlan(env: Env, cr: Horreum)
    requires env.routes && env.parseHost == ParsedHost && ModestRoutes(cr)
    ensures var p := PlanOf(env, cr);
      && !p.hostMissing && p.routes && p.keycloakUri == "" && p.appAccess == ByRoute && p.keycloakAccess == ByRoute
      && p.keycloakRoute.supported && p.appRoute.supported
      && p.keycloakRoute.tlsMode == Secured(ReencryptTermination) && p.keycloakRoute.tlsSecret == ""
      && p.appRoute.tlsMode == Secured(ReencryptTermination) && p.appRoute.tlsSecret == ""
      && forall u: string :: p.keycloakPod(u).Some? == ParsedHost(u).Some?
  {
    hide PostgresPod, PostgresConfigMap, PostgresService, KeycloakPodSpec, KeycloakService;
    hide AppPod, AppService, UploadConfig, ParsedHost;
    hide DbAdminSecret, AppUserSecret, KeycloakAdminSecret, KeycloakDbSecret, HorreumAdminSecret;
  }

  /* What the cluster may do between two runs: routes that wait for it get a
     host, and services a node port. */
  function GiveUrl(obj: Obj): Obj {
    match obj
    case Service(owner, serviceType, ports, selector) =>
      Service(owner, serviceType,
              seq(|ports|, i requires 0 <= i < |ports| =>
                if ports[i].nodePort == 0 then ports[i].(nodePort := 30000) else ports[i]),
              selector)
    case Route(_, _, _, _, _, _) => if RouteUrl(obj) == "" then obj.(ingress := [Ingress("host", [])]) else obj
    case _ => obj
  }

  function GiveUrls(h: map<Key, Obj>): map<Key, Obj> {
    map k | k in h :: GiveUrl(h[k])
  }

  lemma GivingIsDrifting(obj: Obj)
    ensures Drifts(obj, GiveUrl(obj))
    ensures GiveUrl(obj).Route? ==> RouteUrl(GiveUrl(obj)) != ""
  {
  }

  /* The URLs of all routes are those this cluster gives. */
  ghost predicate Tame(h: map<Key, Obj>) {
    forall k | k in h :: RouteUrl(h[k]) in {"", "https://host", "http://host"}
  }

  lemma GivingStaysTame(h: map<Key, Obj>)
    requires Tame(h)
    ensures Tame(GiveUrls(h))
  {
    forall k | k in h ensures RouteUrl(GiveUrl(h[k])) in {"", "https://host", "http://host"} {
      TameRoute(h[k]);
    }
  }

  lemma TameRoute(obj: Obj)
    requires RouteUrl(obj) in {"", "https://host", "http://host"}
    ensures RouteUrl(GiveUrl(obj)) in {"", "https://host", "http://host"}
  {
    assert "https" + "://" + "host" == "https://host" && "http" + "://" + "host" == "http://host";
  }

  lemma RunStaysTame(o: Oracle, env: Env, w: World)
    requires Sound(w) && Tame(w.home)
    ensures Tame(Reconcile(o, env, w).w.home)
  {
    hide Reconcile, PlanOf, Explained, RouteUrl;
    RunsAreSafe(o, env, w);
    var t := Reconcile(o, env, w);
    if w.cr.Some? {
      forall k | k in t.w.home ensures RouteUrl(t.w.home[k]) in {"", "https://host", "http://host"} {
        RouteIsOldOrBare(PlanOf(env, w.cr.value), w.home, Changes(w, t), t.w.home, k);
      }
    }
  }

  function NextWorld(o: Oracle, env: Env, w: World): World {
    var t := Reconcile(o, env, w).w;
    t.(home := GiveUrls(t.home))
  }

  lemma TameParses(env: Env, cr: Horreum, h: map<Key, Obj>)
    requires env.routes && env.parseHost == ParsedHost && ModestRoutes(cr) && Tame(h)
    ensures Parses(PlanOf(env, cr), h)
  {
    hide PlanOf, ParsedHost, RouteUrl;
    ModestRoutesPlan(env, cr);
    ParsesHost("https://", "host", "");
    ParsesHost("http://", "host", "");
    assert "https://" + ("host" + "") == "https://host" && "http://" + ("host" + "") == "http://host";
  }

  /* The next world follows the run. */
  lemma NextFollows(o: Oracle, env: Env, cr: Horreum, w: World)
    requires env.routes && env.parseHost == ParsedHost && ModestRoutes(cr)
    requires Sound(w) && Tame(w.home) && SameResource(Some(cr), w.cr)
    ensures Follows(o, env, cr, w, NextWorld(o, env, w)) && Tame(NextWorld(o, env, w).home)
  {
    hide Reconcile, PlanOf, Drifts, RouteUrl, Tame, Parses, Cost;
    var p := PlanOf(env, cr);
    var t := Reconcile(o, env, w).w;
    RunStaysTame(o, env, w);
    GivingStaysTame(t.home);
    TameParses(env, cr, GiveUrls(t.home));
    forall k | k in t.home ensures Drifts(t.home[k], GiveUrls(t.home)[k]) { GivingIsDrifting(t.home[k]); }
    ModestRoutesPlan(env, cr);
    RoutesGetUrls(p, t.home, p.appService, p.appRoute);
    RoutesGetUrls(p, t.home, p.keycloakService, p.keycloakRoute);
  }

  lemma RoutesGetUrls(p: Plan, h: map<Key, Obj>, service: Manifest, task: RouteTask)
    ensures UrlGiven(p, GiveUrls(h), service, ByRoute, task)
  {
    hide RouteUrl, Drifts, RouteWanted, GiveUrl;
    RouteWantedKey(p, GiveUrls(h), task);
    if task.key in h { GivingIsDrifting(h[task.key]); }
  }

  /** An instance with routes: an empty namespace, a server that never fails, and
      a cluster that gives a host to every route between two runs.  Two rounds
      leave something to do, three do not. */
  lemma RoutesTakeThreeRounds(redHat: bool, cr: Horreum)
    requires ModestRoutes(cr)
    ensures var env := Env(true, redHat, ParsedHost);
      var p := PlanOf(env, cr);
      var w1 := World(cr.ns, map[], map[], Some(cr), 0, []);
      var w2 := NextWorld(TrustChain.STEADY, env, w1);
      var w3 := NextWorld(TrustChain.STEADY, env, w2);
      && Follows(TrustChain.STEADY, env, cr, w1, w2) && Follows(TrustChain.STEADY, env, cr, w2, w3)
      && Potential(p, Reconcile(TrustChain.STEADY, env, w2).w.home) > 0
      && Potential(p, Reconcile(TrustChain.STEADY, env, w3).w.home) == 0
  {
    hide Reconcile, PlanOf, Potential, ParsedHost, NextWorld, Follows, Tame, Parses;
    var env := Env(true, redHat, ParsedHost);
    var o := TrustChain.STEADY;
    var w1 := World(cr.ns, map[], map[], Some(cr), 0, []);
    var w2 := NextWorld(o, env, w1);
    var w3 := NextWorld(o, env, w2);
    EmptyIsViable(env, cr);
    assert Works(o);
    NextFollows(o, env, cr, w1);
    NextRound(o, o, env, cr, w1, w2);
    NextFollows(o, env, cr, w2);
    ModestRoutesPlan(env, cr);
    TwoRoundsAreNotEnough(o, o, env, cr, w1, w2);
    ThreeRounds(o, o, o, env, cr, w1, w2, w3);
  }

  lemma EmptyIsViable(env: Env, cr: Horreum)
    requires env.routes && env.parseHost == ParsedHost && ModestRoutes(cr)
    ensures Viable(PlanOf(env, cr), map[]) && NoApp(PlanOf(env, cr), map[]) && Tame(map[])
  {
    hide PlanOf, ParsedHost;
    ModestRoutesPlan(env, cr);
    TameParses(env, cr, map[]);
  }
}
