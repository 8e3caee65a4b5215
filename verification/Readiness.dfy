/**
  What Ready means: the objects are exactly as asked for, and a run that finds
  them so leaves them, and the status, alone.
 */
module Readiness {
  import opened Wrappers
  import opened Resources
  import opened HorreumApi
  import opened Matching
  import opened Worlds
  import opened Plans
  import opened Steps
  import opened Effects
  import opened Potentials
  import opened Safety
  import opened Convergence
  import opened Endings

  // The goal, part by part

  /* There, matching, and with nothing to complain about. */
  predicate Fine(home: map<Key, Obj>, want: Manifest, mode: Mode) {
    && want.key in home
    && Matches(mode, want, home[want.key])
    && CheckProblem(mode, want.key, home[want.key]) == None
  }

  predicate TrustFine(p: Plan, h: map<Key, Obj>) {
    && p.trustKey in h
    && (!p.routes ==> CertKeys(p) <= h.Keys && ReadAuthority(h[p.caKey]).Some?)
  }

  predicate SecretFine(h: map<Key, Obj>, task: SecretTask) {
    task.key in h && SecretProblem(task.key, NeededKeys(task), h[task.key]) == None
  }

  predicate SecretsFine(p: Plan, h: map<Key, Obj>) {
    SecretFine(h, p.dbAdmin) && SecretFine(h, p.appUser) && SecretFine(h, p.keycloakAdmin) &&
    SecretFine(h, p.keycloakDb) && SecretFine(h, p.admin)
  }

  predicate PostgresFine(p: Plan, h: map<Key, Obj>) {
    if p.postgres then
      Fine(h, p.postgresMap, SameData) && Fine(h, p.postgresPod, SamePod) && Fine(h, p.postgresService, SameService)
    else p.postgresPod.key !in h && p.postgresService.key !in h
  }

  predicate Buildable(p: Plan, h: map<Key, Obj>, task: RouteTask) {
    task.supported && (p.routes ==> RouteWanted(p, task, h).Some?)
  }

  /* A service whose public URL is known. */
  predicate EdgeFine(p: Plan, h: map<Key, Obj>, service: Manifest, access: Access, task: RouteTask) {
    && Fine(h, service, SameService)
    && (access.ByNodePort? || access.ByRoute?)
    && UrlNow(p, h, service.key, access, task.key) != ""
    && (access.ByRoute? ==> RouteWanted(p, task, h).Some? && Fine(h, RouteWanted(p, task, h).value, SameRoute))
  }

  predicate KeycloakFine(p: Plan, h: map<Key, Obj>) {
    var url := KeycloakUrlNow(p, h);
    && p.keycloakPod(url).Some?
    && if p.keycloakUri == "" then
         EdgeFine(p, h, p.keycloakService, p.keycloakAccess, p.keycloakRoute) &&
         Fine(h, p.keycloakPod(url).value, SamePod)
       else
         p.keycloakPodKey !in h && p.keycloakService.key !in h && (p.routes ==> p.keycloakRoute.key !in h)
  }

  predicate AppFine(p: Plan, h: map<Key, Obj>) {
    && EdgeFine(p, h, p.appService, p.appAccess, p.appRoute)
    && Fine(h, p.appPod(KeycloakUrlNow(p, h), AppUrlNow(p, h)), SamePod)
  }

  /* Everything the resource asks for is there and in order, and what it does
     not ask for is not there. */
  predicate AsWanted(p: Plan, h: map<Key, Obj>) {
    && !p.hostMissing
    && TrustFine(p, h) && SecretsFine(p, h) && PostgresFine(p, h)
    && Buildable(p, h, p.keycloakRoute) && KeycloakFine(p, h)
    && Buildable(p, h, p.appRoute) && AppFine(p, h)
    && p.upload.key in h
  }

  // Runs without a complaint

  /* The run went on and called setStatus for nothing. */
  predicate Calm(s: Run, t: Run) {
    t.halt == None && t.notes == s.notes
  }

  lemma CalmSettled(s: Run, t: Run, want: Manifest, mode: Mode)
    requires Settled(s, t, want, mode) && Calm(s, t)
    ensures Kept(s, t) && t.st == s.st && s.halt == None && Fine(t.w.home, want, mode)
  {
    hide Matches, CheckProblem, Represents;
  }

  /* Every state of a run has the notes of the earlier ones as a prefix. */
  lemma CalmBefore(p: Plan, s: Run, t: Run, u: Run)
    requires Proceeds(p, s, t) && Proceeds(p, t, u) && Calm(s, u)
    ensures Calm(s, t) && Calm(t, u)
  {
    hide Explained, Summed;
  }

  lemma TrustPartCalm(o: Oracle, p: Plan, s: Run)
    requires WellFormed(p) && InPlace(p, s) && Calm(s, TrustPart(o, p, s))
    ensures var t := TrustPart(o, p, s); TrustFine(p, t.w.home) && t.st == s.st
  {
    hide Proceeds, EnsureSame, TrustPart, Footprint, WellFormed, Settled, ReadAuthority, CertKeys;
    FootprintHas(p);
    var t := TrustPart(o, p, s);
    TrustPartProceeds(o, p, s);
    HaltedForGood(p, s, t);
    if p.routes {
      PlainProceeds(o, p, s, TrustManifest(p), Exists);
      RoutesTrust(o, p, s);
      CalmSettled(s, t, TrustManifest(p), Exists);
    } else {
      CertificatesReadable(o, p, s);
    }
  }

  lemma RoutesTrust(o: Oracle, p: Plan, s: Run)
    requires p.routes && s.halt == None
    ensures TrustPart(o, p, s) == EnsureSame(o, p, s, TrustManifest(p), Exists).0
  {
    hide EnsureSame, CreateCA, CreateServiceCert;
  }

  lemma CertificatesReadable(o: Oracle, p: Plan, s: Run)
    requires WellFormed(p) && InPlace(p, s) && !p.routes && s.halt == None && TrustPart(o, p, s).halt == None
    ensures var t := TrustPart(o, p, s);
      p.caKey in t.w.home && ReadAuthority(t.w.home[p.caKey]).Some? && t.st == s.st && t.notes == s.notes
  {
    hide Proceeds, LoadAuthority, CreateIfMissing, TrustPart, Footprint, WellFormed, CaCertificate;
    var s0, authority, s1, s2, s3 := TrustSteps(o, p, s);
    LoadAuthorityShape(o, p, s);
    HaltedForGood(p, s0, s1);
    HaltedForGood(p, s1, s2);
    HaltedForGood(p, s2, s3);
    ProceedsTransitive(p, s0, s1, s2);
    ProceedsTransitive(p, s0, s2, s3);
    SecretOrBundleStays(p, s0, s3, p.caKey);
  }

  lemma SecretStepCalm(o: Oracle, p: Plan, s: Run, task: SecretTask)
    requires WellFormed(p) && InPlace(p, s) && task.key in SecretKeys(p) && Calm(s, SecretStep(o, p, s, task))
    ensures var t := SecretStep(o, p, s, task);
      Kept(s, t) && t.st == s.st && s.halt == None && SecretFine(t.w.home, task)
  {
    hide Proceeds, EnsureSame, Footprint, WellFormed, Settled, SecretKeys, SecretProblem, InPlace;
    FootprintHas(p);
    var want := SecretManifest(o, s.w.clock, task);
    PlainProceeds(o, p, s, want, HasKeys(NeededKeys(task)));
    CalmSettled(s, SecretStep(o, p, s, task), want, HasKeys(NeededKeys(task)));
  }

  lemma SecretsPartCalm(o: Oracle, p: Plan, s: Run)
    requires WellFormed(p) && InPlace(p, s) && Calm(s, SecretsPart(o, p, s))
    ensures var t := SecretsPart(o, p, s); Kept(s, t) && t.st == s.st && SecretsFine(p, t.w.home)
  {
    hide Proceeds, SecretStep, WellFormed, InPlace, SecretFine;
    var s1 := SecretStep(o, p, s, p.dbAdmin);
    var s2 := SecretStep(o, p, s1, p.appUser);
    var s3 := SecretStep(o, p, s2, p.keycloakAdmin);
    var s4 := SecretStep(o, p, s3, p.keycloakDb);
    var s5 := SecretStep(o, p, s4, p.admin);
    SecretStepProceeds(o, p, s, p.dbAdmin);
    SecretStepProceeds(o, p, s1, p.appUser);
    SecretStepProceeds(o, p, s2, p.keycloakAdmin);
    SecretStepProceeds(o, p, s3, p.keycloakDb);
    SecretStepProceeds(o, p, s4, p.admin);
    ProceedsTransitive(p, s3, s4, s5);
    ProceedsTransitive(p, s2, s3, s5);
    ProceedsTransitive(p, s1, s2, s5);
    CalmBefore(p, s, s1, s5);
    CalmBefore(p, s1, s2, s5);
    CalmBefore(p, s2, s3, s5);
    CalmBefore(p, s3, s4, s5);
    SecretStepCalm(o, p, s, p.dbAdmin);
    SecretStepCalm(o, p, s1, p.appUser);
    SecretStepCalm(o, p, s2, p.keycloakAdmin);
    SecretStepCalm(o, p, s3, p.keycloakDb);
    SecretStepCalm(o, p, s4, p.admin);
  }

  lemma ClearedHome(s: Run, t: Run, k: Key)
    requires Cleared(s, t, k) && t.halt == None
    ensures t.w.home == s.w.home - {k} && Calm(s, t) && t.st == s.st
  {
  }

  lemma PostgresPartCalm(o: Oracle, p: Plan, s: Run)
    requires WellFormed(p) && InPlace(p, s) && (s.halt == None ==> AllThere(p, s.w.home))
    requires Calm(s, PostgresPart(o, p, s))
    ensures var t := PostgresPart(o, p, s);
      && t.st == s.st && PostgresFine(p, t.w.home)
      && t.w.home == if p.postgres then s.w.home else s.w.home - {p.postgresPod.key, p.postgresService.key}
  {
    hide Proceeds, EnsureSame, EnsureDeleted, Settled, Cleared, Footprint, AllThere, InPlace, Fine;
    FootprintHas(p);
    var t := PostgresPart(o, p, s);
    if p.postgres {
      var s1 := EnsureSame(o, p, s, p.postgresMap, SameData).0;
      var s2 := EnsureSame(o, p, s1, p.postgresPod, SamePod).0;
      ComparedProceeds(o, p, s, p.postgresMap, SameData);
      ThereWhenSettled(s, s1, p.postgresMap, SameData);
      PodProceeds(o, p, s1, p.postgresPod);
      ComparedProceeds(o, p, s2, p.postgresService, SameService);
      ProceedsTransitive(p, s1, s2, t);
      CalmBefore(p, s, s1, t);
      CalmBefore(p, s1, s2, t);
      CalmSettled(s, s1, p.postgresMap, SameData);
      CalmSettled(s1, s2, p.postgresPod, SamePod);
      CalmSettled(s2, t, p.postgresService, SameService);
    } else {
      var s1 := EnsureDeleted(o, s, p.postgresPod.key);
      DeletedProceeds(o, p, s, p.postgresPod.key);
      DeletedProceeds(o, p, s1, p.postgresService.key);
      CalmBefore(p, s, s1, t);
      ClearedHome(s, s1, p.postgresPod.key);
      ClearedHome(s1, t, p.postgresService.key);
      assert t.w.home == s.w.home - {p.postgresPod.key} - {p.postgresService.key};
    }
  }

  lemma FindUrlCalm(
    o: Oracle, p: Plan, s: Run, service: Manifest, access: Access, task: RouteTask, route: Option<Manifest>)
    requires WellFormed(p) && InPlace(p, s) && Built(p, s, task, route)
    requires access.ByRoute? ==> p.routes
    requires task.key in Footprint(p) && task.key.kind == RouteKind
    requires OwnManifest(service, ServiceKind, p.owner.ns) && service.key in Footprint(p)
    requires Calm(s, FindUrl(o, p, s, service, access, route).0)
    ensures var (t, url) := FindUrl(o, p, s, service, access, route);
      && Kept(s, t) && t.st == s.st
      && EdgeFine(p, t.w.home, service, access, task)
      && url == UrlNow(p, t.w.home, service.key, access, task.key) && url != ""
  {
    hide Proceeds, EnsureSame, Settled, Footprint, WellFormed, AwaitUrl, NodePortUrl, LoadBalancerUrl, RoutedUrl;
    hide RouteWanted, UrlNow, Fine, InPlace;
    var u := EnsureSame(o, p, s, service, SameService).0;
    var (t, url) := FindUrl(o, p, s, service, access, route);
    PlainProceeds(o, p, s, service, SameService);
    ThereWhenSettled(s, u, service, SameService);
    match access {
      case ByNodePort =>
        NodePortProceeds(o, p, u, service);
        CalmBefore(p, s, u, t);
        CalmSettled(s, u, service, SameService);
        NodePortUrlIsCurrent(o, p, u, service, task);
      case ByLoadBalancer =>
        LoadBalancerProceeds(o, p, u, service);
      case ByRoute =>
        RoutedUrlIsKnown(o, p, u, service, task, route);
        PlainProceeds(o, p, u, route.value, SameRoute);
        CalmBefore(p, s, u, t);
        CalmSettled(s, u, service, SameService);
        CalmSettled(u, t, route.value, SameRoute);
      case Nowhere =>
        AwaitProceeds(o, p, u, service);
    }
  }

  lemma KeycloakPartCalm(o: Oracle, p: Plan, s: Run, url: string)
    requires WellFormed(p) && InPlace(p, s) && (s.halt == None ==> AllThere(p, s.w.home))
    requires Calm(s, KeycloakPart(o, p, s, url))
    ensures var t := KeycloakPart(o, p, s, url);
      && t.st == s.st.(keycloakUrl := url) && p.keycloakPod(url).Some?
      && (p.keycloakUri == "" ==> Kept(s, t) && Fine(t.w.home, p.keycloakPod(url).value, SamePod))
      && (p.keycloakUri != "" ==>
            t.w.home == s.w.home - ({p.keycloakPodKey, p.keycloakService.key} +
                                    if p.routes then {p.keycloakRoute.key} else {}))
  {
    hide Proceeds, EnsureSame, EnsureDeleted, Settled, Cleared, Footprint, AllThere, Fine;
    FootprintHas(p);
    var r := s.(st := s.st.(keycloakUrl := url));
    var t := KeycloakPart(o, p, s, url);
    if s.halt == None && p.keycloakPod(url).Some? {
      if p.keycloakUri == "" {
        PodProceeds(o, p, r, p.keycloakPod(url).value);
        CalmSettled(r, t, p.keycloakPod(url).value, SamePod);
      } else {
        KeycloakGoneCalm(o, p, r);
      }
    }
  }

  lemma KeycloakGoneCalm(o: Oracle, p: Plan, s: Run)
    requires WellFormed(p) && InPlace(p, s) && (s.halt == None ==> AllThere(p, s.w.home))
    ensures var s1 := EnsureDeleted(o, s, p.keycloakPodKey);
      var s2 := EnsureDeleted(o, s1, p.keycloakService.key);
      var t := if p.routes then EnsureDeleted(o, s2, p.keycloakRoute.key) else s2;
      t.halt == None ==>
        t.st == s.st &&
        t.w.home == s.w.home - ({p.keycloakPodKey, p.keycloakService.key} +
                                if p.routes then {p.keycloakRoute.key} else {})
  {
    hide Proceeds, EnsureDeleted, Cleared, Footprint, AllThere, InPlace;
    FootprintHas(p);
    var s1 := EnsureDeleted(o, s, p.keycloakPodKey);
    var s2 := EnsureDeleted(o, s1, p.keycloakService.key);
    var s3 := EnsureDeleted(o, s2, p.keycloakRoute.key);
    DeletedProceeds(o, p, s, p.keycloakPodKey);
    HaltedForGood(p, s, s1);
    DeletedProceeds(o, p, s1, p.keycloakService.key);
    HaltedForGood(p, s1, s2);
    DeletedProceeds(o, p, s2, p.keycloakRoute.key);
    HaltedForGood(p, s2, s3);
    if s2.halt == None {
      ClearedHome(s, s1, p.keycloakPodKey);
      ClearedHome(s1, s2, p.keycloakService.key);
      assert s2.w.home == s.w.home - {p.keycloakPodKey, p.keycloakService.key};
      if s3.halt == None { ClearedHome(s2, s3, p.keycloakRoute.key); }
    }
  }

  lemma AppPartCalm(o: Oracle, p: Plan, s: Run, keycloakUrl: string, url: string)
    requires WellFormed(p) && InPlace(p, s) && (s.halt == None ==> AllThere(p, s.w.home))
    requires Calm(s, AppPart(o, p, s, keycloakUrl, url))
    ensures var t := AppPart(o, p, s, keycloakUrl, url);
      && t.st == s.st.(publicUrl := url) && Kept(s, t)
      && Fine(t.w.home, p.appPod(keycloakUrl, url), SamePod)
  {
    hide Proceeds, EnsureSame, Settled, Footprint, AllThere, Fine;
    FootprintHas(p);
    var r := s.(st := s.st.(publicUrl := url));
    PodProceeds(o, p, r, p.appPod(keycloakUrl, url));
    CalmSettled(r, AppPart(o, p, s, keycloakUrl, url), p.appPod(keycloakUrl, url), SamePod);
  }

  lemma FinishCalm(o: Oracle, p: Plan, s: Run)
    requires WellFormed(p) && InPlace(p, s)
    requires EnsureSame(o, p, s, p.upload, Exists).0.halt == None && Finish(o, p, s).notes == s.notes
    ensures var t := Finish(o, p, s);
      t.st == s.st && Kept(s, t) && p.upload.key in t.w.home && s.halt == None
  {
    hide Proceeds, EnsureSame, Settled, Footprint, WellFormed, Fine;
    FootprintHas(p);
    UploadFits(p);
    PlainProceeds(o, p, s, p.upload, Exists);
    var t := EnsureSame(o, p, s, p.upload, Exists).0;
    ThereWhenSettled(s, t, p.upload, Exists);
    CalmSettled(s, t, p.upload, Exists);
    UploadThere(t.w.home, p.upload);
  }

  lemma UploadThere(h: map<Key, Obj>, want: Manifest)
    requires Fine(h, want, Exists)
    ensures want.key in h
  {
  }

  // What later parts leave alone

  /* Removing workloads disturbs neither secrets nor config maps. */
  predicate Workloads(ks: set<Key>) {
    forall k | k in ks :: k.kind == PodKind || k.kind == ServiceKind || k.kind == RouteKind
  }

  lemma MapsFineWithout(p: Plan, h: map<Key, Obj>, ks: set<Key>)
    requires WellFormed(p) && Workloads(ks)
    ensures TrustFine(p, h) ==> TrustFine(p, h - ks)
    ensures SecretsFine(p, h) ==> SecretsFine(p, h - ks)
    ensures Buildable(p, h, p.keycloakRoute) ==> Buildable(p, h - ks, p.keycloakRoute)
  {
    hide ReadAuthority, SecretProblem, RouteFor, TlsFromSecret, WellFormed;
    SecretKinds(p);
  }

  lemma SecretKinds(p: Plan)
    requires WellFormed(p)
    ensures IsKind(p.dbAdmin.key, SecretKind, p.owner.ns) && IsKind(p.appUser.key, SecretKind, p.owner.ns)
    ensures IsKind(p.keycloakAdmin.key, SecretKind, p.owner.ns) && IsKind(p.keycloakDb.key, SecretKind, p.owner.ns)
    ensures IsKind(p.admin.key, SecretKind, p.owner.ns) && p.trustKey.kind == ConfigMapKind
    ensures forall k | k in CertKeys(p) :: k.kind == SecretKind
    ensures IsKind(p.caKey, SecretKind, p.owner.ns) && IsKind(p.appCert.key, SecretKind, p.owner.ns)
    ensures IsKind(p.keycloakCert.key, SecretKind, p.owner.ns)
  {
    hide PodsFormed, ServicesFormed, RoutesFormed;
    CertKinds(p);
    assert p.dbAdmin.key in SecretKeys(p) && p.appUser.key in SecretKeys(p) && p.keycloakAdmin.key in SecretKeys(p);
    assert p.keycloakDb.key in SecretKeys(p) && p.admin.key in SecretKeys(p);
  }

  lemma PostgresFineWithout(p: Plan, h: map<Key, Obj>, ks: set<Key>)
    requires WellFormed(p) && PostgresFine(p, h)
    requires ks <= {p.keycloakPodKey, p.keycloakService.key, p.keycloakRoute.key}
    ensures PostgresFine(p, h - ks)
  {
    hide Matches, CheckProblem, SecretsFormed;
  }

  lemma NotesDecide(s: Run, t: Run, p: Plan)
    requires Proceeds(p, s, t) && s.st.phase == Ready && t.st.phase == Ready
    ensures t.notes == s.notes
  {
    hide Explained;
    var ns := t.notes[|s.notes|..];
    if ns != [] {
      assert IsComplaint(ns[|ns| - 1]);
      FoldComplains(s.st, ns);
    }
    assert t.notes == s.notes + ns;
  }

  lemma {:induction false} FoldComplains(st: Status, ns: seq<Note>)
    requires ns != [] && forall i | 0 <= i < |ns| :: IsComplaint(ns[i])
    ensures Fold(st, ns).phase != Ready
  {
    var i := |ns| - 1;
    if i > 0 { FoldComplains(st, ns[..i]); }
    assert IsComplaint(ns[i]);
  }

  /* The notes of a stage lie between those of the first and of the last one. */
  lemma CalmStages(p: Plan, g: Stages)
    requires Staged(p, g) && g.end.notes == g.s0.notes && g.s9.halt == None
    ensures Calm(g.s0, g.s1) && Calm(g.s1, g.s2) && Calm(g.s2, g.s3) && Calm(g.s3, g.s4) && Calm(g.s4, g.s5)
    ensures Calm(g.s5, g.s6) && Calm(g.s6, g.s7) && Calm(g.s7, g.s8) && Calm(g.s8, g.s9)
    ensures g.s9.notes == g.end.notes
  {
    hide Explained, Summed, SameResource;
  }

  lemma BuildCalm(o: Oracle, p: Plan, s: Run, task: RouteTask)
    requires WellFormed(p) && InPlace(p, s) && Calm(s, BuildRoute(o, p, s, task).0)
    ensures var (t, route) := BuildRoute(o, p, s, task);
      Kept(s, t) && t.st == s.st && Built(p, t, task, route) && Buildable(p, t.w.home, task)
  {
    hide Proceeds, WellFormed, RouteWanted, Pays;
    BuildRouteProceeds(o, p, s, task);
    BuildPays(o, p, s, task);
    Supported(o, p, s, task);
  }

  lemma Supported(o: Oracle, p: Plan, s: Run, task: RouteTask)
    ensures BuildRoute(o, p, s, task).0.halt == None ==> task.supported
  {
    hide RouteFor, ReadTlsSecret;
  }

  lemma KeycloakUrlCalm(o: Oracle, p: Plan, s: Run, route: Option<Manifest>)
    requires WellFormed(p) && InPlace(p, s) && Built(p, s, p.keycloakRoute, route)
    requires Calm(s, KeycloakUrl(o, p, s, route).0)
    ensures var (t, url) := KeycloakUrl(o, p, s, route);
      && Kept(s, t) && t.st == s.st && url == KeycloakUrlNow(p, t.w.home) && url != ""
      && (p.keycloakUri == "" ==> EdgeFine(p, t.w.home, p.keycloakService, p.keycloakAccess, p.keycloakRoute))
  {
    hide FindUrl, Fine, RouteWanted, UrlNow, Footprint, Built;
    if p.keycloakUri == "" {
      AppFormed(p);
      FindUrlCalm(o, p, s, p.keycloakService, p.keycloakAccess, p.keycloakRoute, route);
    }
  }

  lemma RoutedOnlyWithRoutes(p: Plan)
    requires WellFormed(p)
    ensures p.appAccess.ByRoute? ==> p.routes
  {
  }

  lemma ThroughStages(p: Plan, g: Stages)
    requires Staged(p, g) && g.s9.halt == None
    ensures g.s0.halt == None && g.s1.halt == None && g.s2.halt == None && g.s3.halt == None && g.s4.halt == None
    ensures g.s5.halt == None && g.s6.halt == None && g.s7.halt == None && g.s8.halt == None
  {
    hide Explained, Summed, SameResource;
  }

  lemma StartsReady(o: Oracle, p: Plan, s: Run)
    requires s.halt == None && Prologue(o, p, s).halt == None
    ensures !p.hostMissing && Prologue(o, p, s).st.phase == Ready
  {
  }

  /* The stages of a run that ended Ready. */
  lemma ReadyStages(o: Oracle, p: Plan, s: Run)
    requires WellFormed(p) && InPlace(p, s) && s.halt == None
    requires Execute(o, p, s).halt == Some(Finished) && Execute(o, p, s).st.phase == Ready
    ensures var g := StagesOf(o, p, s);
      && Staged(p, g) && AllHoused(p, g) && g.end == Execute(o, p, s) && !p.hostMissing
      && EnsureSame(o, p, g.s9, p.upload, Exists).0.halt == None && g.s9.halt == None
      && g.end.notes == g.s0.notes
  {
    hide Proceeds, WellFormed, EnsureSame, StagesOf, Staged, Execute, Prologue;
    var g := StagesOf(o, p, s);
    StagesHold(o, p, s);
    FinishedWentThrough(o, p, s);
    ThroughStages(p, g);
    FirstStage(o, p, s);
    StartsReady(o, p, s);
    ExecuteProceeds(o, p, s);
    NotesDecide(g.s0, g.end, p);
  }

  function PostgresWorkloads(p: Plan): set<Key> {
    if p.postgres then {} else {p.postgresPod.key, p.postgresService.key}
  }

  function KeycloakWorkloads(p: Plan): set<Key> {
    if p.keycloakUri == "" then {}
    else {p.keycloakPodKey, p.keycloakService.key} + if p.routes then {p.keycloakRoute.key} else {}
  }

  lemma WorkloadKinds(p: Plan)
    requires WellFormed(p)
    ensures Workloads(PostgresWorkloads(p)) && Workloads(KeycloakWorkloads(p))
  {
  }

  /* From what held after each part to what holds in the end. */
  lemma Assemble(p: Plan, h1: map<Key, Obj>, h3: map<Key, Obj>, h6: map<Key, Obj>, keycloakUrl: string, url: string)
    requires WellFormed(p) && !p.hostMissing
    requires TrustFine(p, h1) && SecretsFine(p, h1)
    requires h3 == h1 - PostgresWorkloads(p) && PostgresFine(p, h3) && Buildable(p, h3, p.keycloakRoute)
    requires keycloakUrl == KeycloakUrlNow(p, h3) && p.keycloakPod(keycloakUrl).Some?
    requires h6 == h3 - KeycloakWorkloads(p)
    requires p.keycloakUri == "" ==>
      EdgeFine(p, h3, p.keycloakService, p.keycloakAccess, p.keycloakRoute) &&
      Fine(h6, p.keycloakPod(keycloakUrl).value, SamePod)
    requires Buildable(p, h6, p.appRoute) && EdgeFine(p, h6, p.appService, p.appAccess, p.appRoute)
    requires url == AppUrlNow(p, h6) && Fine(h6, p.appPod(keycloakUrl, url), SamePod) && p.upload.key in h6
    ensures AsWanted(p, h6) && keycloakUrl == KeycloakUrlNow(p, h6)
  {
    hide WellFormed, TrustFine, SecretsFine, PostgresFine, EdgeFine, Fine, Buildable, UrlNow;
    WorkloadKinds(p);
    MapsFineWithout(p, h1, PostgresWorkloads(p));
    MapsFineWithout(p, h3, KeycloakWorkloads(p));
    PostgresFineWithout(p, h3, KeycloakWorkloads(p));
    if p.keycloakUri == "" { assert h6 == h3; }
  }

  /** Ready is sound: a run that returns no error and no requeue with status
      Ready leaves exactly what the resource asks for, and the status holds the
      URLs that the live objects give. */
  lemma ReadyIsSound(o: Oracle, p: Plan, s: Run)
    requires WellFormed(p) && InPlace(p, s) && s.halt == None
    requires Execute(o, p, s).halt == Some(Finished) && Execute(o, p, s).st.phase == Ready
    ensures var t := Execute(o, p, s);
      && AsWanted(p, t.w.home)
      && t.st.keycloakUrl == KeycloakUrlNow(p, t.w.home) != ""
      && t.st.publicUrl == AppUrlNow(p, t.w.home) != ""
  {
    hide Proceeds, AllThere, WellFormed, EnsureSame, TrustFine, SecretsFine, PostgresFine, Fine, Execute;
    hide UrlNow, RouteWanted, Prologue, Staged, Built, Buildable, AsWanted, EdgeFine;
    hide TrustPart, SecretsPart, PostgresPart, BuildRoute, KeycloakUrl, KeycloakPart, FindUrl, AppPart, Finish;
    var g := StagesOf(o, p, s);
    ReadyStages(o, p, s);
    CalmStages(p, g);
    TrustPartCalm(o, p, g.s0);
    SecretsPartCalm(o, p, g.s1);
    PostgresPartCalm(o, p, g.s2);
    BuildCalm(o, p, g.s3, p.keycloakRoute);
    KeycloakUrlCalm(o, p, g.s4, g.keycloakRoute);
    KeycloakPartCalm(o, p, g.s5, g.keycloakUrl);
    BuildCalm(o, p, g.s6, p.appRoute);
    AppFormed(p);
    RoutedOnlyWithRoutes(p);
    FindUrlCalm(o, p, g.s7, p.appService, p.appAccess, p.appRoute, g.appRoute);
    AppPartCalm(o, p, g.s8, g.keycloakUrl, g.url);
    FinishCalm(o, p, g.s9);
    Assemble(p, g.s1.w.home, g.s3.w.home, g.end.w.home, g.keycloakUrl, g.url);
  }
}
