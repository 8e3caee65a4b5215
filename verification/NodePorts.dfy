/**
  Node-port safety of whole runs: which URLs the pods are made with that a run
  creates, at whatever point it is cut short.
 */
module NodePorts {
  import opened Wrappers
  import opened Resources
  import opened HorreumApi
  import opened Worlds
  import opened Plans
  import opened Steps
  import opened Effects
  import opened Builders
  import opened Reconciling
  import opened Potentials
  import opened Safety
  import opened Convergence
  import opened Histories
  import opened Endings
  import opened Verdicts
  import opened WorkingRuns
  import opened Making
  import Names

  /* Every pod that a run creates is one of those that its URLs give. */
  lemma RunPods(o: Oracle, p: Plan, s: Run)
    requires WellFormed(p) && InPlace(p, s) && s.halt == None
    ensures var t := Execute(o, p, s);
      && s.w.log <= t.w.log
      && forall i | |s.w.log| <= i < |t.w.log| && t.w.log[i].Made? && t.w.log[i].what.PodM? ::
           t.w.log[i].what in PodsOf(p, StagesOf(o, p, s))
  {
    hide WellFormed, StagesOf, Execute, PodsOf, CertKeys, SameSecrets;
    hide TrustPart, SecretsPart, PostgresPart, BuildRoute, Prologue, KeycloakUrl, KeycloakPart, FindUrl;
    hide AppPart, Finish;
    var g := StagesOf(o, p, s);
    var q := (e: Event) => e.Made? && e.what.PodM? ==> e.what in PodsOf(p, g);
    StageSteps(o, p, s);
    NoPods(p);
    BuiltIsRoute(o, p, g.s3, p.keycloakRoute);
    BuiltIsRoute(o, p, g.s6, p.appRoute);
    SecretsPartMakesSecrets(o, p, g.s1, q);
    RunMakes(o, p, s, q);
  }

  lemma NoPods(p: Plan)
    requires WellFormed(p)
    ensures forall m | m in Fixtures(p) :: !m.PodM?
  {
    hide SecretsFormed, PodsFormed, RoutesFormed;
  }

  // Node ports

  /* A URL that leads to a node port. */
  ghost predicate IsNodeUrl(host: string, url: string) {
    host != "" && exists port: nat :: port != 0 && url == NodeUrl(host, port)
  }

  lemma AppUrlIsNodeUrl(o: Oracle, p: Plan, s: Run)
    requires WellFormed(p) && InPlace(p, s) && s.halt == None && p.appAccess.ByNodePort?
    ensures var g := StagesOf(o, p, s);
      g.s8.halt == None ==> exists port: nat :: port != 0 && g.url == NodeUrl(p.nodeHost, port)
  {
    hide WellFormed, StagesOf, Execute, Staged, AllThere, FindUrl, NodeUrl, Footprint, PortOf;
    hide TrustPart, SecretsPart, PostgresPart, BuildRoute, Prologue, KeycloakUrl, KeycloakPart, AppPart, Finish;
    var g := StagesOf(o, p, s);
    StagesHold(o, p, s);
    StageSteps(o, p, s);
    PortServices(p);
    NodePortUrlIsGood(o, p, g.s7, p.appService, g.appRoute);
  }

  lemma KeycloakUrlIsNodeUrl(o: Oracle, p: Plan, s: Run)
    requires WellFormed(p) && InPlace(p, s) && s.halt == None && p.keycloakAccess.ByNodePort? && p.keycloakUri == ""
    ensures var g := StagesOf(o, p, s);
      g.s5.halt == None ==> exists port: nat :: port != 0 && g.keycloakUrl == NodeUrl(p.nodeHost, port)
  {
    hide WellFormed, StagesOf, Execute, Staged, AllThere, FindUrl, NodeUrl, Footprint, Built, Pays;
    hide TrustPart, SecretsPart, PostgresPart, BuildRoute, Prologue, KeycloakUrl, KeycloakPart, AppPart, Finish;
    var g := StagesOf(o, p, s);
    StagesHold(o, p, s);
    StageSteps(o, p, s);
    BuildPays(o, p, g.s3, p.keycloakRoute);
    FoundUrl(o, p, g.s4, g.keycloakRoute);
  }

  /* The pod is made with the URLs of node ports, where these are used. */
  ghost predicate UsesNodeUrls(p: Plan, m: Manifest) {
    && (m.key == p.appPodKey && p.appAccess.ByNodePort? ==>
          exists u: string, v: string :: m == p.appPod(u, v) && IsNodeUrl(p.nodeHost, v))
    && (m.key == p.keycloakPodKey && p.keycloakUri == "" && p.keycloakAccess.ByNodePort? ==>
          exists u: string :: p.keycloakPod(u) == Some(m) && IsNodeUrl(p.nodeHost, u))
  }

  lemma StagePodsUseNodeUrls(o: Oracle, p: Plan, s: Run, m: Manifest)
    requires WellFormed(p) && InPlace(p, s) && s.halt == None
    requires (p.appAccess.ByNodePort? || p.keycloakAccess.ByNodePort?) && !p.hostMissing ==> p.nodeHost != ""
    requires m in PodsOf(p, StagesOf(o, p, s))
    ensures !p.hostMissing ==> UsesNodeUrls(p, m)
  {
    hide StagesOf, NodeUrl, SecretsFormed, MapsFormed, ServicesFormed, RoutesFormed, InPlace;
    if p.appAccess.ByNodePort? { AppUrlIsNodeUrl(o, p, s); }
    if p.keycloakUri == "" && p.keycloakAccess.ByNodePort? { KeycloakUrlIsNodeUrl(o, p, s); }
  }

  lemma HostOfPlan(env: Env, cr: Horreum)
    ensures var p := PlanOf(env, cr);
      (p.appAccess.ByNodePort? || p.keycloakAccess.ByNodePort?) && !p.hostMissing ==> p.nodeHost != ""
  {
    hide PostgresPod, PostgresConfigMap, PostgresService, KeycloakPod, KeycloakService, KeycloakRoute;
    hide AppPod, AppService, AppRoute, UploadConfig;
    hide DbAdminSecret, AppUserSecret, KeycloakAdminSecret, KeycloakDbSecret, HorreumAdminSecret;
  }

  /** Node-port safety: every pod that any run creates for a component reached by
      node port is made with a URL that has the node host, not empty, and a port
      that is not zero, whatever fails and wherever the run is cut short. */
  lemma CreatedPodsUseNodeUrls(o: Oracle, env: Env, w: World)
    requires Sound(w) && w.cr.Some?
    ensures var p, t := PlanOf(env, w.cr.value), Reconcile(o, env, w);
      && w.log <= t.w.log
      && forall i | |w.log| <= i < |t.w.log| && t.w.log[i].Made? && t.w.log[i].what.PodM? ::
           UsesNodeUrls(p, t.w.log[i].what)
  {
    hide PlanOf, Execute, UsesNodeUrls, WellFormed, StagesOf, PodsOf;
    var cr := w.cr.value;
    var p, t := PlanOf(env, cr), Reconcile(o, env, w);
    Names.PlanIsWellFormed(env, cr);
    Names.PlanOwner(env, cr);
    HostOfPlan(env, cr);
    RunsAreSafe(o, env, w);
    if o.reply(w.clock) == Ok {
      var s := Run(Tick(o, w), cr.status, [], None);
      RunPods(o, p, s);
      if p.hostMissing { MissingHostMakesNothing(o, p, s); }
      forall i | |w.log| <= i < |t.w.log| && t.w.log[i].Made? && t.w.log[i].what.PodM?
        ensures UsesNodeUrls(p, t.w.log[i].what)
      {
        StagePodsUseNodeUrls(o, p, s, t.w.log[i].what);
      }
    }
  }

  lemma MissingHostMakesNothing(o: Oracle, p: Plan, s: Run)
    requires WellFormed(p) && InPlace(p, s) && s.halt == None && p.hostMissing
    ensures Execute(o, p, s).w.log == s.w.log
  {
    hide WellFormed, StagesOf, Execute, AllThere, Proceeds;
    StagesHold(o, p, s);
    FirstStage(o, p, s);
    PrologueEnds(o, p, s);
    StagesFollow(p, StagesOf(o, p, s));
    HaltedEnds(p, StagesOf(o, p, s).s0, StagesOf(o, p, s).end);
  }

  lemma HaltedEnds(p: Plan, s: Run, t: Run)
    requires Proceeds(p, s, t) && s.halt.Some?
    ensures t == s
  {
  }
}
