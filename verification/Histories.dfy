/**
  Whole histories: run after run, with the cluster and the user acting in
  between and every run stopping wherever the oracle lets it stop.
 */
module Histories {
  import opened Wrappers
  import opened Resources
  import opened HorreumApi
  import opened Matching
  import opened Worlds
  import opened Plans
  import opened Steps
  import opened Effects
  import opened Builders
  import opened Reconciling
  import opened Potentials
  import opened Safety
  import opened Convergence
  import Names

  /* The changes a run made. */
  function Changes(w: World, t: Run): seq<Event>
    requires w.log <= t.w.log
  {
    t.w.log[|w.log|..]
  }

  /** Every run, from any state and under any oracle: the changes it logged
      explain the objects of the namespace, each of them was legal when it was
      made, and of the stored resource at most the status changed. */
  lemma RunsAreSafe(o: Oracle, env: Env, w: World)
    requires Sound(w)
    ensures var t := Reconcile(o, env, w);
      && w.log <= t.w.log && t.halt.Some? && t.w.ns == w.ns && SameResource(w.cr, t.w.cr)
      && (w.cr == None ==> t.w.home == w.home && t.w.log == w.log)
      && (w.cr.Some? ==> Explained(PlanOf(env, w.cr.value), w.home, Changes(w, t), t.w.home))
  {
    hide Execute, PlanOf, Explained;
    var t := Reconcile(o, env, w);
    if w.cr.Some? {
      var p := PlanOf(env, w.cr.value);
      var s := Run(Tick(o, w), w.cr.value.status, [], None);
      Names.PlanOwner(env, w.cr.value);
      Names.PlanIsWellFormed(env, w.cr.value);
      NothingExplained(p, w.home);
      assert w.log[|w.log|..] == [];
      ExecuteProceeds(o, p, s);
      PrologueKeeps(o, p, s);
      ProceedsParts(p, Prologue(o, p, s), Execute(o, p, s));
    }
  }

  lemma NothingExplained(p: Plan, home: map<Key, Obj>)
    ensures Explained(p, home, [], home)
  {
    hide Legal;
  }

  lemma ProceedsParts(p: Plan, s: Run, t: Run)
    requires Proceeds(p, s, t)
    ensures s.w.log <= t.w.log && t.w.ns == s.w.ns && SameResource(s.w.cr, t.w.cr)
    ensures Explained(p, s.w.home, t.w.log[|s.w.log|..], t.w.home)
  {
    hide Explained;
  }

  // Secrets

  /* Secrets that were there are still there, unchanged. */
  predicate SecretsStay(h: map<Key, Obj>, h': map<Key, Obj>) {
    forall k | k in h && k.kind == SecretKind :: k in h' && h'[k] == h[k]
  }

  /** No run deletes or rewrites a secret. */
  lemma RunKeepsSecrets(o: Oracle, env: Env, w: World)
    requires Sound(w)
    ensures SecretsStay(w.home, Reconcile(o, env, w).w.home)
  {
    hide Reconcile, Explained, PlanOf;
    RunsAreSafe(o, env, w);
    if w.cr.Some? {
      var p := PlanOf(env, w.cr.value);
      Names.PlanIsWellFormed(env, w.cr.value);
      var t := Reconcile(o, env, w);
      forall k | k in w.home && k.kind == SecretKind ensures k in t.w.home && t.w.home[k] == w.home[k] {
        MapKinds(p);
        UndeletableStays(p, w.home, Changes(w, t), t.w.home, k);
      }
    }
  }

  lemma MapKinds(p: Plan)
    requires WellFormed(p)
    ensures p.postgresMap.key.kind == ConfigMapKind
  {
  }

  /* Between two runs anything may happen, edits of the resource included, but
     nobody else touches the secrets. */
  predicate LeavesSecrets(a: World, b: World) {
    b.ns == a.ns && Sound(b) && SecretsStay(a.home, b.home)
  }

  /** Passwords, keys and certificates survive every history of edits, faults
      and crashes: a secret that exists at some point is the same ever after. */
  lemma {:induction false} SecretsAreForever(os: seq<Oracle>, envs: seq<Env>, ws: seq<World>)
    requires |os| == |envs| && |ws| == |os| + 1 && Sound(ws[0])
    requires forall i | 0 <= i < |os| :: LeavesSecrets(Reconcile(os[i], envs[i], ws[i]).w, ws[i + 1])
    ensures SecretsStay(ws[0].home, ws[|os|].home)
  {
    hide Reconcile;
    if |os| > 0 {
      assert LeavesSecrets(Reconcile(os[0], envs[0], ws[0]).w, ws[1]);
      RunKeepsSecrets(os[0], envs[0], ws[0]);
      forall i | 0 <= i < |os| - 1
        ensures LeavesSecrets(Reconcile(os[1..][i], envs[1..][i], ws[1..][i]).w, ws[1..][i + 1])
      {
        assert LeavesSecrets(Reconcile(os[i + 1], envs[i + 1], ws[i + 1]).w, ws[i + 2]);
      }
      SecretsAreForever(os[1..], envs[1..], ws[1..]);
    }
  }

  // Convergence

  /* What happens to an object without the operator: the status of a pod moves
     on, and a service or route that has no URL yet may get one, for good. */
  predicate Drifts(a: Obj, b: Obj) {
    match a
    case Pod(owner, labels, spec, _) => b.Pod? && b.owner == owner && b.labels == labels && b.spec == spec
    case Service(owner, serviceType, ports, selector) =>
      && b.Service? && b.owner == owner && b.serviceType == serviceType && b.selector == selector
      && |b.ports| == |ports|
      && forall i | 0 <= i < |ports| ::
           b.ports[i].(nodePort := ports[i].nodePort) == ports[i] &&
           (ports[i].nodePort != 0 ==> b.ports[i] == ports[i])
    case Route(owner, host, subdomain, target, tls, _) =>
      b.Route? && b.owner == owner && b.host == host && b.subdomain == subdomain && b.target == target && b.tls == tls
      && (RouteUrl(a) != "" ==> RouteUrl(b) == RouteUrl(a))
    case Secret(_, _) => b == a
    case ConfigMap(_, _, _) => b == a
  }

  function Watched(p: Plan): set<Key> {
    Footprint(p) + {TlsKey(p, p.keycloakRoute), TlsKey(p, p.appRoute)}
  }

  ghost predicate Benign(p: Plan, h: map<Key, Obj>, h': map<Key, Obj>) {
    forall k | k in Watched(p) :: (k in h <==> k in h') && (k in h ==> Drifts(h[k], h'[k]))
  }

  lemma DriftMatches(mode: Mode, want: Manifest, a: Obj, b: Obj)
    requires Drifts(a, b)
    ensures Matches(mode, want, b) == Matches(mode, want, a)
  {
    hide Encode, RouteUrl;
  }

  lemma CostDrifts(p: Plan, h: map<Key, Obj>, h': map<Key, Obj>, want: Manifest, mode: Mode)
    requires Benign(p, h, h') && want.key in Footprint(p)
    ensures Cost(h', want, mode) == Cost(h, want, mode)
  {
    hide Matches, Drifts, Footprint;
    assert want.key in Watched(p);
    if want.key in h {
      DriftMatches(mode, want, h[want.key], h'[want.key]);
    }
  }

  lemma WantedDrifts(p: Plan, h: map<Key, Obj>, h': map<Key, Obj>, task: RouteTask)
    requires Benign(p, h, h') && (task == p.keycloakRoute || task == p.appRoute)
    ensures RouteWanted(p, task, h') == RouteWanted(p, task, h)
  {
    hide RouteFor, TlsFromSecret, Footprint, TlsKey;
    assert TlsKey(p, task) in Watched(p);
  }

  lemma RouteCostDrifts(p: Plan, h: map<Key, Obj>, h': map<Key, Obj>, task: RouteTask)
    requires Benign(p, h, h') && (task == p.keycloakRoute || task == p.appRoute)
    ensures RouteCost(p, task, h') == RouteCost(p, task, h)
    ensures RouteWanted(p, task, h') == RouteWanted(p, task, h)
  {
    hide Cost, RouteWanted, Footprint, Benign;
    FootprintHas(p);
    WantedDrifts(p, h, h', task);
    WantedKey(p, h, task);
    match RouteWanted(p, task, h)
    case None =>
    case Some(want) => CostDrifts(p, h, h', want, SameRoute);
  }

  lemma WantedKey(p: Plan, h: map<Key, Obj>, task: RouteTask)
    ensures RouteWanted(p, task, h).Some? ==> RouteWanted(p, task, h).value.key == task.key
  {
    hide TlsFromSecret;
  }

  /* A URL that is known does not change. */
  lemma UrlDrifts(p: Plan, h: map<Key, Obj>, h': map<Key, Obj>, service: Key, access: Access, route: Key)
    requires Benign(p, h, h') && service in Footprint(p) && route in Footprint(p)
    ensures UrlNow(p, h, service, access, route) != "" ==>
      UrlNow(p, h', service, access, route) == UrlNow(p, h, service, access, route)
  {
    hide NodeUrl, RouteUrl, Footprint;
    assert service in Watched(p) && route in Watched(p);
    if PortOf(h, service) != 0 {
      var a, b := h[service], h'[service];
      assert b.Service? && |b.ports| == |a.ports| && b.ports[0] == a.ports[0];
    }
    if route in h {
      var a, b := h[route], h'[route];
      assert RouteUrl(a) != "" ==> RouteUrl(b) == RouteUrl(a) by { OnlyRoutesHaveUrls(a); }
    }
  }

  lemma OnlyRoutesHaveUrls(a: Obj)
    ensures RouteUrl(a) != "" ==> a.Route?
  {
  }

  lemma EdgeDrifts(p: Plan, h: map<Key, Obj>, h': map<Key, Obj>)
    requires Benign(p, h, h')
    ensures KeycloakEdge(p, h') == KeycloakEdge(p, h) && AppEdge(p, h') == AppEdge(p, h)
  {
    hide Cost, RouteCost, Footprint, Drifts;
    FootprintHas(p);
    CostDrifts(p, h, h', p.keycloakService, SameService);
    CostDrifts(p, h, h', p.appService, SameService);
    RouteCostDrifts(p, h, h', p.keycloakRoute);
    RouteCostDrifts(p, h, h', p.appRoute);
    assert p.keycloakService.key in Watched(p) && p.keycloakRoute.key in Watched(p);
  }

  lemma PodsDrift(p: Plan, h: map<Key, Obj>, h': map<Key, Obj>)
    requires WellFormed(p) && Benign(p, h, h')
    ensures KeycloakPodCost(p, h') <= KeycloakPodCost(p, h) && AppPodCost(p, h') <= AppPodCost(p, h)
  {
    hide Cost, UrlNow, Footprint, Drifts, Benign, SecretsFormed, MapsFormed, ServicesFormed, RoutesFormed;
    FootprintHas(p);
    PodCostsAreSmall(p, h');
    UrlDrifts(p, h, h', p.keycloakService.key, p.keycloakAccess, p.keycloakRoute.key);
    UrlDrifts(p, h, h', p.appService.key, p.appAccess, p.appRoute.key);
    var keycloakUrl, url := KeycloakUrlNow(p, h), AppUrlNow(p, h);
    if p.keycloakPod(keycloakUrl).Some? { CostDrifts(p, h, h', p.keycloakPod(keycloakUrl).value, SamePod); }
    CostDrifts(p, h, h', p.appPod(keycloakUrl, url), SamePod);
    ExtraDrifts(p, h, h', p.keycloakPodKey);
  }

  lemma ExtraDrifts(p: Plan, h: map<Key, Obj>, h': map<Key, Obj>, k: Key)
    requires Benign(p, h, h') && k in Footprint(p)
    ensures Extra(h', k) == Extra(h, k) && Missing(h', k) == Missing(h, k)
  {
    hide Drifts, Footprint;
    assert k in Watched(p);
  }

  lemma FlatDrifts(p: Plan, h: map<Key, Obj>, h': map<Key, Obj>)
    requires Benign(p, h, h')
    ensures TrustCost(p, h') == TrustCost(p, h) && SecretsCost(p, h') == SecretsCost(p, h)
    ensures Missing(h', p.upload.key) == Missing(h, p.upload.key)
  {
    hide Drifts, Benign, Missing, Footprint;
    FootprintHas(p);
    forall k | k in Footprint(p) ensures Missing(h', k) == Missing(h, k) { ExtraDrifts(p, h, h', k); }
    assert p.caKey in CertKeys(p) && p.appCert.key in CertKeys(p) && p.keycloakCert.key in CertKeys(p);
    assert p.dbAdmin.key in SecretKeys(p) && p.appUser.key in SecretKeys(p) && p.keycloakAdmin.key in SecretKeys(p);
    assert p.keycloakDb.key in SecretKeys(p) && p.admin.key in SecretKeys(p);
  }

  lemma PostgresDrifts(p: Plan, h: map<Key, Obj>, h': map<Key, Obj>)
    requires Benign(p, h, h')
    ensures PostgresCost(p, h') == PostgresCost(p, h)
  {
    hide Cost, Extra, Footprint, Drifts, Benign;
    FootprintHas(p);
    CostDrifts(p, h, h', p.postgresMap, SameData);
    CostDrifts(p, h, h', p.postgresPod, SamePod);
    CostDrifts(p, h, h', p.postgresService, SameService);
    ExtraDrifts(p, h, h', p.postgresPod.key);
    ExtraDrifts(p, h, h', p.postgresService.key);
  }

  /** What the cluster does on its own brings the objects no further away. */
  lemma DriftNeverRaises(p: Plan, h: map<Key, Obj>, h': map<Key, Obj>)
    requires WellFormed(p) && Benign(p, h, h')
    ensures Potential(p, h') <= Potential(p, h)
  {
    hide TrustCost, SecretsCost, PostgresCost, KeycloakEdge, KeycloakPodCost, AppEdge, AppPodCost, Missing, Benign;
    FlatDrifts(p, h, h');
    PostgresDrifts(p, h, h');
    EdgeDrifts(p, h, h');
    PodsDrift(p, h, h');
  }

  /* The state in which the next run starts when nobody edits the resource. */
  ghost predicate Continues(p: Plan, a: World, b: World) {
    b.ns == a.ns && b.log == a.log && SameResource(a.cr, b.cr) && Benign(p, a.home, b.home)
  }

  /** With a fixed resource, all runs of a history together make at most as many
      creates and deletes as the potential at its start, whatever fails and
      wherever the runs are cut short; that is at most 60. */
  lemma {:induction false} CallsAreFinite(env: Env, cr: Horreum, os: seq<Oracle>, ws: seq<World>)
    requires |ws| == |os| + 1 && Sound(ws[0]) && SameResource(Some(cr), ws[0].cr)
    requires forall i | 0 <= i < |os| :: Continues(PlanOf(env, cr), Reconcile(os[i], env, ws[i]).w, ws[i + 1])
    ensures var p := PlanOf(env, cr);
      |ws[|os|].log| - |ws[0].log| + Potential(p, ws[|os|].home) <= Potential(p, ws[0].home) <= 60
  {
    hide Reconcile, Continues, Potential, PlanOf, SameResource;
    var p := PlanOf(env, cr);
    PotentialIsBounded(p, ws[0].home);
    if |os| > 0 {
      assert Continues(p, Reconcile(os[0], env, ws[0]).w, ws[1]);
      RunPays(os[0], env, cr, ws[0], ws[1]);
      forall i | 0 <= i < |os| - 1
        ensures Continues(p, Reconcile(os[1..][i], env, ws[1..][i]).w, ws[1..][i + 1])
      {
        assert Continues(p, Reconcile(os[i + 1], env, ws[i + 1]).w, ws[i + 2]);
      }
      CallsAreFinite(env, cr, os[1..], ws[1..]);
    }
  }

  lemma RunPays(o: Oracle, env: Env, cr: Horreum, a: World, b: World)
    requires Sound(a) && SameResource(Some(cr), a.cr)
    requires Continues(PlanOf(env, cr), Reconcile(o, env, a).w, b)
    ensures Sound(b) && SameResource(Some(cr), b.cr)
    ensures var p := PlanOf(env, cr);
      |b.log| - |a.log| + Potential(p, b.home) <= Potential(p, a.home)
  {
    hide Execute, Potential, Benign, PlanFor;
    var p := PlanOf(env, cr);
    assert PlanOf(env, a.cr.value) == p;
    Names.PlanIsWellFormed(env, cr);
    Names.PlanOwner(env, a.cr.value);
    RunsAreSafe(o, env, a);
    var t := Reconcile(o, env, a);
    DriftNeverRaises(p, t.w.home, b.home);
    if o.reply(a.clock) == Ok {
      var s := Run(Tick(o, a), a.cr.value.status, [], None);
      ExecutePays(o, p, s);
      PaysUnfolded(p, s, Execute(o, p, s));
    }
  }

  lemma PaysUnfolded(p: Plan, s: Run, t: Run)
    requires Pays(p, s, t, 0)
    ensures |t.w.log| - |s.w.log| + Potential(p, t.w.home) <= Potential(p, s.w.home)
  {
    hide Potential;
  }
}
