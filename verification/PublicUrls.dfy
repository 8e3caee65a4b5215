/**
  What public URLs are (controllers/horreum_controller.go:192-225, 250-282 and
  415-426): those a run goes on with, and those in the status of a resource that
  is Ready.
 */
module PublicUrls {
  import opened Wrappers
  import opened Resources
  import opened HorreumApi
  import opened Matching
  import opened Worlds
  import opened Plans
  import opened Steps
  import opened Effects
  import opened Builders
  import opened Reconciling
  import opened Numerals
  import opened Potentials
  import opened Safety
  import opened Verdicts
  import opened Readiness
  import opened Fixpoint
  import opened RouteSecurity

  /* The URL of a route: https if the route has TLS, else http, and the host at
     which its first ingress serves it. */
  predicate LeadsToRoute(h: map<Key, Obj>, k: Key, url: string) {
    && k in h && h[k].Route? && h[k].ingress != [] && h[k].ingress[0].host != ""
    && (h[k].tls.Some? ==> url == "https://" + h[k].ingress[0].host)
    && (h[k].tls.None? ==> url == "http://" + h[k].ingress[0].host)
  }

  /* The URL of a node port: the node host and the port of the service, in digits. */
  ghost predicate LeadsToPort(h: map<Key, Obj>, k: Key, host: string, url: string) {
    && k in h && h[k].Service? && h[k].ports != [] && h[k].ports[0].nodePort != 0
    && exists digits: string :: IsNumeral(digits, h[k].ports[0].nodePort) && url == "https://" + host + ":" + digits
  }

  lemma RouteUrlLeads(h: map<Key, Obj>, k: Key)
    requires k in h && RouteUrl(h[k]) != ""
    ensures LeadsToRoute(h, k, RouteUrl(h[k]))
  {
  }

  lemma NodeUrlLeads(h: map<Key, Obj>, k: Key, host: string)
    requires PortOf(h, k) != 0
    ensures LeadsToPort(h, k, host, NodeUrl(host, PortOf(h, k)))
  {
    hide IsNumeral;
    DecimalIsNumeral(PortOf(h, k));
  }

  /* The route that is found was there when the run looked for the service. */
  lemma LeadsBefore(o: Oracle, p: Plan, s: Run, service: Manifest, k: Key, url: string)
    requires WellFormed(p) && InPlace(p, s) && OwnManifest(service, ServiceKind, p.owner.ns)
    requires service.key in Footprint(p) && k.kind == RouteKind
    ensures var u := EnsureSame(o, p, s, service, SameService).0;
      LeadsToRoute(u.w.home, k, url) ==> LeadsToRoute(s.w.home, k, url)
  {
    hide EnsureSame, Footprint, Proceeds, WellFormed, Matches, Represents, CheckProblem;
    PlainProceeds(o, p, s, service, SameService);
  }

  lemma RoutedUrlLeads(o: Oracle, p: Plan, s: Run, service: Manifest, route: Option<Manifest>)
    requires s.halt == None && (route.Some? ==> route.value.key.ns == s.w.ns)
    ensures var (t, url) := RoutedUrl(o, p, s, service, route);
      t.halt == None ==> route.Some? && LeadsToRoute(s.w.home, route.value.key, url)
  {
    hide RouteUrl, LeadsToRoute, CreateStep, ReplaceStep, CheckStep, Quit, Matches;
    if route.Some? {
      var u := EnsureSame(o, p, s, route.value, SameRoute).0;
      if u.halt == None { QuitWith(o, u, Pending, WaitingForUrl(service.key), Requeued); }
      if route.value.key in s.w.home && RouteUrl(s.w.home[route.value.key]) != "" {
        RouteUrlLeads(s.w.home, route.value.key);
      }
    }
  }

  /** Whatever fails, a run goes on from looking for a public URL only with that of
      the service's node port, or with that of the route as it was found: it had an
      ingress with a host. */
  lemma FoundUrlLeads(o: Oracle, p: Plan, s: Run, service: Manifest, access: Access, route: Option<Manifest>)
    requires WellFormed(p) && InPlace(p, s) && OwnManifest(service, ServiceKind, p.owner.ns)
    requires service.key in Footprint(p) && |service.ports| == 1
    requires access.ByNodePort? ==> service.serviceType == "NodePort"
    requires route.Some? ==> IsKind(route.value.key, RouteKind, p.owner.ns)
    ensures var (t, url) := FindUrl(o, p, s, service, access, route);
      t.halt == None ==>
        match access
        case ByNodePort => LeadsToPort(t.w.home, service.key, p.nodeHost, url)
        case ByRoute => route.Some? && LeadsToRoute(s.w.home, route.value.key, url)
        case _ => false
  {
    hide EnsureSame, Footprint, Proceeds, WellFormed, Settled, NodeUrl, Quit, NodePortUrl, LoadBalancerUrl, RoutedUrl;
    hide LeadsToPort, LeadsToRoute, AwaitUrl;
    var u := EnsureSame(o, p, s, service, SameService).0;
    PlainProceeds(o, p, s, service, SameService);
    if u.halt == None {
      match access
      case ByNodePort =>
        NodePortUrlIsGood(o, p, s, service, route);
        if FindUrl(o, p, s, service, access, route).0.halt == None {
          NodeUrlLeads(FindUrl(o, p, s, service, access, route).0.w.home, service.key, p.nodeHost);
        }
      case ByRoute =>
        RoutedUrlLeads(o, p, u, service, route);
        if route.Some? { LeadsBefore(o, p, s, service, route.value.key, FindUrl(o, p, s, service, access, route).1); }
      case ByLoadBalancer => LoadBalancerProceeds(o, p, u, service);
      case Nowhere => AwaitProceeds(o, p, u, service);
    }
  }

  /* The public URL of a component, by the service type it asks for. */
  ghost predicate Leads(
    env: Env, cr: Horreum, serviceType: string, suffix: string, h: map<Key, Obj>, url: string)
  {
    if serviceType == "NodePort" || (serviceType == "" && !env.routes) then
      cr.spec.nodeHost != "" && LeadsToPort(h, Key(ServiceKind, cr.ns, cr.name + suffix), cr.spec.nodeHost, url)
    else
      serviceType != "LoadBalancer" && env.routes && LeadsToRoute(h, Key(RouteKind, cr.ns, cr.name + suffix), url)
  }

  lemma UrlNowLeads(
    env: Env, cr: Horreum, p: Plan, h: map<Key, Obj>, serviceType: string, suffix: string, service: Key, route: Key)
    requires p.nodeHost == cr.spec.nodeHost
    requires service == Key(ServiceKind, cr.ns, cr.name + suffix) && route == Key(RouteKind, cr.ns, cr.name + suffix)
    requires UrlNow(p, h, service, AccessOf(serviceType, env.routes), route) != ""
    requires AccessOf(serviceType, env.routes).ByNodePort? ==> cr.spec.nodeHost != ""
    ensures Leads(env, cr, serviceType, suffix, h, UrlNow(p, h, service, AccessOf(serviceType, env.routes), route))
  {
    hide LeadsToRoute, LeadsToPort, RouteUrl, NodeUrl, PortOf;
    match AccessOf(serviceType, env.routes)
    case ByNodePort => NodeUrlLeads(h, service, p.nodeHost);
    case ByRoute => RouteUrlLeads(h, route);
    case _ =>
  }

  /** Ready, for the user: the status of a reconciliation that ended Ready shows the
      node host and the live port, in digits, or scheme and host of the live route;
      for an external Keycloak the URI that was given. */
  lemma ReadyUrlsLead(o: Oracle, env: Env, w: World)
    requires Sound(w) && w.cr.Some?
    requires Reconcile(o, env, w).halt == Some(Finished) && Reconcile(o, env, w).st.phase == Ready
    ensures var cr, t := w.cr.value, Reconcile(o, env, w);
      && Leads(env, cr, cr.spec.serviceType, "", t.w.home, t.st.publicUrl)
      && if cr.spec.keycloak.external.publicUri != "" then
           t.st.keycloakUrl == cr.spec.keycloak.external.publicUri
         else Leads(env, cr, cr.spec.keycloak.serviceType, "-keycloak", t.w.home, t.st.keycloakUrl)
  {
    hide Reconcile, PlanOf, TrustFine, SecretsFine, PostgresFine, Buildable, UrlNow, AccessOf, Leads;
    var cr, t := w.cr.value, Reconcile(o, env, w);
    var p, h := PlanOf(env, cr), t.w.home;
    ReadyMeansWanted(o, env, w);
    EdgesOfPlan(env, cr);
    assert cr.name + "" == cr.name;
    UrlNowLeads(env, cr, p, h, cr.spec.serviceType, "", p.appService.key, p.appRoute.key);
    if p.keycloakUri == "" {
      UrlNowLeads(env, cr, p, h, cr.spec.keycloak.serviceType, "-keycloak", p.keycloakService.key, p.keycloakRoute.key);
    }
  }
}
