/**
  Which verdicts a run can end with: node ports are looked at only where there
  is one, and what makes the operator panic or wait forever.
 */
module Verdicts {
  import opened Wrappers
  import opened Resources
  import opened HorreumApi
  import opened Matching
  import opened Worlds
  import opened Plans
  import opened Steps
  import opened Effects
  import opened Builders
  import opened Potentials
  import opened Safety
  import opened Endings
  import opened Numerals

  // Node ports

  /* The service of a component that is reached by node port. */
  predicate ByPort(p: Plan, service: Manifest) {
    && OwnManifest(service, ServiceKind, p.owner.ns) && service.key in Footprint(p)
    && service.serviceType == "NodePort" && |service.ports| == 1
  }

  /** getNodePort is called for a service that has just been ensured: it is
      there, of type NodePort and with exactly one port, whatever was there
      before and whatever fails, so Ports[0] exists. */
  lemma NodePortIsThere(o: Oracle, p: Plan, s: Run, service: Manifest)
    requires WellFormed(p) && InPlace(p, s) && ByPort(p, service)
    ensures var u := EnsureSame(o, p, s, service, SameService).0;
      u.halt == None ==>
        && service.key in u.w.home && u.w.home[service.key].Service?
        && u.w.home[service.key].serviceType == "NodePort" && |u.w.home[service.key].ports| == 1
        && NodePortUrl(o, p, u, service).0.halt != Some(Panicked(NoPorts))
  {
    hide EnsureSame, Footprint, Proceeds, WellFormed, CheckProblem, Represents, Decimal, Quit;
    PlainProceeds(o, p, s, service, SameService);
    var u := EnsureSame(o, p, s, service, SameService).0;
    if u.halt == None {
      QuitWith(o, u.(w := Get(o, u.w, service.key).0), Pending, WaitingForNodePort(service.key), Requeued);
    }
  }

  lemma QuitWith(o: Oracle, s: Run, phase: Phase, reason: Reason, verdict: Verdict)
    requires s.halt == None
    ensures Quit(o, s, phase, reason, verdict).halt in {Some(Crashed), Some(verdict)}
  {
  }

  /** A node port URL that a run goes on with has the port of the live service,
      which is not zero, and the host of the resource. */
  lemma NodePortUrlIsGood(o: Oracle, p: Plan, s: Run, service: Manifest, route: Option<Manifest>)
    requires WellFormed(p) && InPlace(p, s) && ByPort(p, service)
    ensures var (t, url) := FindUrl(o, p, s, service, ByNodePort, route);
      t.halt == None ==> PortOf(t.w.home, service.key) != 0 && url == NodeUrl(p.nodeHost, PortOf(t.w.home, service.key))
  {
    hide EnsureSame, Footprint, Proceeds, WellFormed, Settled, NodeUrl, Quit;
    PlainProceeds(o, p, s, service, SameService);
    var u := EnsureSame(o, p, s, service, SameService).0;
    if u.halt == None {
      QuitWith(o, u.(w := Get(o, u.w, service.key).0), Pending, WaitingForNodePort(service.key), Requeued);
    }
  }

  /** Different ports give different URLs, so pods are replaced when a port changes. */
  lemma NodeUrlsDiffer(host: string, a: nat, b: nat)
    ensures NodeUrl(host, a) == NodeUrl(host, b) <==> a == b
  {
    if NodeUrl(host, a) == NodeUrl(host, b) {
      var prefix := "https://" + host + ":";
      assert Decimal(a) == NodeUrl(host, a)[|prefix|..] && Decimal(b) == NodeUrl(host, b)[|prefix|..];
      DecimalIsNumeral(a);
      DecimalIsNumeral(b);
    }
  }

  /** Where a node port is used, the run does not get past its start without a node host. */
  lemma HostIsGiven(o: Oracle, env: Env, cr: Horreum, s: Run)
    requires s.halt == None
    ensures var p := PlanOf(env, cr);
      (p.appAccess.ByNodePort? || p.keycloakAccess.ByNodePort?) && Prologue(o, p, s).halt == None ==> p.nodeHost != ""
  {
    hide PostgresPod, PostgresConfigMap, PostgresService, KeycloakPod, KeycloakService, KeycloakRoute;
    hide AppPod, AppService, AppRoute, UploadConfig, Quit;
    hide DbAdminSecret, AppUserSecret, KeycloakAdminSecret, KeycloakDbSecret, HorreumAdminSecret;
    QuitWith(o, s, Error, NodeHostMissing, Failed);
  }

  // All verdicts

  function Panics(access: Access): set<Verdict> {
    if access.ByLoadBalancer? then {Panicked(NilService)} else {}
  }

  function KeycloakPanics(p: Plan): set<Verdict> {
    if p.keycloakUri == "" then Panics(p.keycloakAccess) else {}
  }

  lemma FindUrlVerdicts(o: Oracle, p: Plan, s: Run, service: Manifest, access: Access, route: Option<Manifest>)
    requires WellFormed(p) && InPlace(p, s)
    requires access.ByNodePort? ==> ByPort(p, service)
    requires access.ByRoute? && s.halt == None ==> route.Some?
    ensures var t := FindUrl(o, p, s, service, access, route).0;
      && Ends(s, t, FAULTS + {Requeued} + Panics(access))
      && (access.ByLoadBalancer? || access.Nowhere? ==> t.halt.Some?)
  {
    hide EnsureSame, Footprint, WellFormed, NodePortUrl, RoutedUrl, Quit;
    FindUrlEnds(o, p, s, service, access, route);
    var u := EnsureSame(o, p, s, service, SameService).0;
    EnsureSameEnds(o, p, s, service, SameService);
    if u.halt == None {
      if access.ByNodePort? { NodePortIsThere(o, p, s, service); }
      QuitWith(o, u, Pending, WaitingForUrl(service.key), Requeued);
      QuitWith(o, u.(w := Get(o, u.w, service.key).0), Pending, WaitingForUrl(service.key), Requeued);
    }
  }

  lemma PortServices(p: Plan)
    requires WellFormed(p)
    ensures p.appAccess.ByNodePort? ==> ByPort(p, p.appService)
    ensures p.keycloakAccess.ByNodePort? ==> ByPort(p, p.keycloakService)
    ensures p.appAccess.ByRoute? || p.keycloakAccess.ByRoute? ==> p.routes
  {
    hide SecretsFormed, MapsFormed, PodsFormed;
  }

  lemma KeycloakUrlVerdicts(o: Oracle, p: Plan, s: Run, route: Option<Manifest>)
    requires WellFormed(p) && InPlace(p, s) && (p.routes && s.halt == None ==> route.Some?)
    ensures var t := KeycloakUrl(o, p, s, route).0;
      && Ends(s, t, FAULTS + {Requeued} + KeycloakPanics(p))
      && (p.keycloakUri == "" && (p.keycloakAccess.ByLoadBalancer? || p.keycloakAccess.Nowhere?) ==> t.halt.Some?)
  {
    hide FindUrl, Footprint, WellFormed, ByPort;
    PortServices(p);
    if p.keycloakUri == "" { FindUrlVerdicts(o, p, s, p.keycloakService, p.keycloakAccess, route); }
  }

  lemma RouteIsBuilt(o: Oracle, p: Plan, s: Run, task: RouteTask)
    ensures var (t, route) := BuildRoute(o, p, s, task); p.routes && t.halt == None ==> route.Some?
  {
    hide RouteFor, TlsFromSecret;
  }

  lemma UrlStagesEnd(o: Oracle, p: Plan, s: Run)
    requires WellFormed(p) && InPlace(p, s) && s.halt == None
    ensures var g := StagesOf(o, p, s);
      && Ends(g.s4, g.s5, FAULTS + {Requeued} + KeycloakPanics(p))
      && Ends(g.s7, g.s8, FAULTS + {Requeued} + Panics(p.appAccess))
      && (p.keycloakUri == "" && (p.keycloakAccess.ByLoadBalancer? || p.keycloakAccess.Nowhere?) ==> g.s5.halt.Some?)
      && (p.appAccess.ByLoadBalancer? || p.appAccess.Nowhere? ==> g.s8.halt.Some?)
  {
    hide StagesOf, WellFormed, KeycloakUrl, FindUrl, BuildRoute, Execute, Staged, AllThere, ByPort;
    hide TrustPart, SecretsPart, PostgresPart, KeycloakPart, AppPart, Finish, Ends;
    var g := StagesOf(o, p, s);
    StagesHold(o, p, s);
    StageSteps(o, p, s);
    RouteIsBuilt(o, p, g.s3, p.keycloakRoute);
    RouteIsBuilt(o, p, g.s6, p.appRoute);
    PortServices(p);
    KeycloakUrlVerdicts(o, p, g.s4, g.keycloakRoute);
    FindUrlVerdicts(o, p, g.s7, p.appService, p.appAccess, g.appRoute);
  }

  lemma EndsOn(s: Run, t: Run, u: Run, vs: set<Verdict>, ws: set<Verdict>)
    requires Ends(s, t, vs) && Ends(t, u, ws)
    ensures Ends(s, u, vs + ws)
  {
  }

  /* The verdicts of the parts before Keycloak's pod, and of those after it. */
  lemma HalvesEnd(o: Oracle, p: Plan, s: Run)
    requires WellFormed(p) && InPlace(p, s) && s.halt == None
    ensures var g := StagesOf(o, p, s);
      && Ends(s, g.s5, FAULTS + {Requeued} + KeycloakPanics(p))
      && Ends(g.s6, g.end, FAULTS + {Requeued, Finished} + Panics(p.appAccess))
  {
    hide StagesOf, WellFormed, Ends, Panics, KeycloakPanics;
    var g := StagesOf(o, p, s);
    StagesEnd(o, p, s);
    UrlStagesEnd(o, p, s);
    EndsOn(s, g.s0, g.s1, FAULTS, FAULTS);
    EndsOn(s, g.s1, g.s2, FAULTS + FAULTS, FAULTS);
    EndsOn(s, g.s2, g.s3, FAULTS + FAULTS + FAULTS, FAULTS);
    EndsOn(s, g.s3, g.s4, FAULTS + FAULTS + FAULTS + FAULTS, FAULTS);
    var vs := FAULTS + {Requeued} + KeycloakPanics(p);
    EndsOn(s, g.s4, g.s5, FAULTS + FAULTS + FAULTS + FAULTS + FAULTS, vs);
    assert FAULTS + FAULTS + FAULTS + FAULTS + FAULTS + vs == vs;
    var ws := FAULTS + {Requeued} + Panics(p.appAccess);
    EndsOn(g.s6, g.s7, g.s8, FAULTS, ws);
    EndsOn(g.s6, g.s8, g.s9, FAULTS + ws, FAULTS);
    EndsOn(g.s6, g.s9, g.end, FAULTS + ws + FAULTS, FAULTS + {Finished});
    assert FAULTS + ws + FAULTS + (FAULTS + {Finished}) == FAULTS + {Requeued, Finished} + Panics(p.appAccess);
  }

  /* A component that the operator runs is reached by load balancer. */
  predicate UsesLoadBalancer(p: Plan) {
    (p.keycloakUri == "" && p.keycloakAccess.ByLoadBalancer?) || p.appAccess.ByLoadBalancer?
  }

  lemma PanicsOf(s: Run, t: Run, panics: set<Verdict>)
    requires Ends(s, t, FAULTS + {Requeued, Finished} + panics) && s.halt == None && t.halt.Some?
    requires panics <= {Panicked(NilService)}
    ensures !t.halt.value.Panicked? || (panics != {} && t.halt.value.cause == NilService)
    ensures t.halt.value != Ignored
  {
  }

  /** A run panics for want of a pod exactly when it gets to Keycloak's pod with a
      URL that does not parse, for want of a service only with a load balancer,
      and never for want of a port or of a route. */
  lemma PanicsAreFew(o: Oracle, p: Plan, s: Run)
    requires WellFormed(p) && InPlace(p, s) && s.halt == None
    ensures var g, t := StagesOf(o, p, s), Execute(o, p, s);
      && (t.halt == Some(Panicked(NilPod)) <==> g.s5.halt == None && p.keycloakPod(g.keycloakUrl) == None)
      && (t.halt == Some(Panicked(NilService)) ==> UsesLoadBalancer(p))
      && t.halt != Some(Panicked(NoPorts)) && t.halt != Some(Panicked(NilRoute)) && t.halt != Some(Ignored)
  {
    hide StagesOf, WellFormed, Execute, EnsureSame, KeycloakPart, Finish, FindUrl, BuildRoute, AppPart;
    hide TrustPart, SecretsPart, PostgresPart, KeycloakUrl;
    var g := StagesOf(o, p, s);
    StageSteps(o, p, s);
    HalvesEnd(o, p, s);
    KeycloakPartEnds(o, p, g.s5, g.keycloakUrl);
    if g.s5.halt.Some? {
      PanicsOf(s, g.s5, KeycloakPanics(p));
      assert g.end.halt == g.s5.halt;
    } else if g.s6.halt == None && g.end.halt.Some? {
      PanicsOf(g.s6, g.end, Panics(p.appAccess));
    }
  }

  /** No progress: with a load balancer, or with neither routes nor a node port,
      no run ever finishes, whatever the API server answers. */
  lemma NeverFinishes(o: Oracle, p: Plan, s: Run)
    requires WellFormed(p) && InPlace(p, s) && s.halt == None
    requires
      || p.appAccess.ByLoadBalancer? || p.appAccess.Nowhere?
      || (p.keycloakUri == "" && (p.keycloakAccess.ByLoadBalancer? || p.keycloakAccess.Nowhere?))
    ensures Execute(o, p, s).halt != Some(Finished)
  {
    hide StagesOf, WellFormed, Execute, EnsureSame;
    StageSteps(o, p, s);
    StagesEnd(o, p, s);
    UrlStagesEnd(o, p, s);
    if Execute(o, p, s).halt == Some(Finished) { FinishedWentThrough(o, p, s); }
  }

  /** With a load balancer a failed read of the service panics; a read that
      succeeds makes the run wait, whatever ingress the service has. */
  lemma LoadBalancerOutcome(o: Oracle, s: Run, service: Manifest)
    requires s.halt == None && service.key.ns == s.w.ns && service.key in s.w.home
    ensures var t := LoadBalancerUrl(o, s, service).0;
      && (t.halt == Some(Panicked(NilService)) <==> o.reply(s.w.clock) == Refused || o.reply(s.w.clock) == Lost)
      && (o.reply(s.w.clock) == Ok ==> t.halt == Some(Requeued) || t.halt == Some(Crashed))
  {
    hide Quit;
    var u := s.(w := Get(o, s.w, service.key).0);
    QuitWith(o, u, Pending, WaitingForUrl(service.key), Requeued);
  }
}
