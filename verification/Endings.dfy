/** How runs end: which verdicts are possible, and when. */
module Endings {
  import opened Wrappers
  import opened Resources
  import opened HorreumApi
  import opened Matching
  import opened Worlds
  import opened Plans
  import opened Steps
  import opened Safety

  const FAULTS: set<Verdict> := {Crashed, Failed}

  /* Between two states a run went on, or ended with one of these verdicts. */
  predicate Ends(s: Run, t: Run, vs: set<Verdict>) {
    t.halt == s.halt || (s.halt == None && t.halt.Some? && t.halt.value in vs)
  }

  lemma EnsureSameEnds(o: Oracle, p: Plan, s: Run, want: Manifest, mode: Mode)
    ensures Ends(s, EnsureSame(o, p, s, want, mode).0, FAULTS)
  {
    hide Matches, CheckProblem, Live;
  }

  lemma EnsureDeletedEnds(o: Oracle, s: Run, k: Key)
    ensures Ends(s, EnsureDeleted(o, s, k), FAULTS)
  {
  }

  lemma CreateIfMissingEnds(o: Oracle, p: Plan, s: Run, k: Key, made: Option<Manifest>)
    ensures Ends(s, CreateIfMissing(o, p, s, k, made), FAULTS)
  {
    hide Live;
  }

  lemma LoadAuthorityEnds(o: Oracle, p: Plan, s: Run)
    ensures Ends(s, LoadAuthority(o, p, s).0, FAULTS)
  {
    hide Live, CaCertificate, ReadAuthority;
  }

  lemma CertEnds(o: Oracle, p: Plan, s: Run, authority: Option<Authority>, task: CertTask)
    ensures Ends(s, CreateServiceCert(o, p, s, authority, task), FAULTS)
  {
    hide CreateIfMissing, ServiceCertificate;
    if authority.Some? {
      CreateIfMissingEnds(o, p, s, task.key, CertSecret(o, s.w.clock + 1, p, authority.value, task));
    }
  }

  lemma TrustPartEnds(o: Oracle, p: Plan, s: Run)
    ensures Ends(s, TrustPart(o, p, s), FAULTS)
  {
    hide EnsureSame, CreateIfMissing, LoadAuthority, CreateServiceCert;
    EnsureSameEnds(o, p, s, TrustManifest(p), Exists);
    LoadAuthorityEnds(o, p, s);
    var (s1, authority) := CreateCA(o, p, s);
    if authority.Some? {
      CreateIfMissingEnds(o, p, LoadAuthority(o, p, s).0, p.trustKey, Some(TrustBundle(p, authority.value)));
    }
    CertEnds(o, p, s1, authority, p.appCert);
    CertEnds(o, p, CreateServiceCert(o, p, s1, authority, p.appCert), authority, p.keycloakCert);
  }

  lemma SecretStepEnds(o: Oracle, p: Plan, s: Run, task: SecretTask)
    ensures Ends(s, SecretStep(o, p, s, task), FAULTS)
  {
    hide EnsureSame;
    EnsureSameEnds(o, p, s, SecretManifest(o, s.w.clock, task), HasKeys(NeededKeys(task)));
  }

  lemma SecretsPartEnds(o: Oracle, p: Plan, s: Run)
    ensures Ends(s, SecretsPart(o, p, s), FAULTS)
  {
    hide SecretStep;
    var s1 := SecretStep(o, p, s, p.dbAdmin);
    var s2 := SecretStep(o, p, s1, p.appUser);
    var s3 := SecretStep(o, p, s2, p.keycloakAdmin);
    var s4 := SecretStep(o, p, s3, p.keycloakDb);
    SecretStepEnds(o, p, s, p.dbAdmin);
    SecretStepEnds(o, p, s1, p.appUser);
    SecretStepEnds(o, p, s2, p.keycloakAdmin);
    SecretStepEnds(o, p, s3, p.keycloakDb);
    SecretStepEnds(o, p, s4, p.admin);
  }

  lemma PostgresPartEnds(o: Oracle, p: Plan, s: Run)
    ensures Ends(s, PostgresPart(o, p, s), FAULTS)
  {
    hide EnsureSame, EnsureDeleted;
    if p.postgres {
      var s1 := EnsureSame(o, p, s, p.postgresMap, SameData).0;
      EnsureSameEnds(o, p, s, p.postgresMap, SameData);
      EnsureSameEnds(o, p, s1, p.postgresPod, SamePod);
      EnsureSameEnds(o, p, EnsureSame(o, p, s1, p.postgresPod, SamePod).0, p.postgresService, SameService);
    } else {
      EnsureDeletedEnds(o, s, p.postgresPod.key);
      EnsureDeletedEnds(o, EnsureDeleted(o, s, p.postgresPod.key), p.postgresService.key);
    }
  }

  lemma BuildRouteEnds(o: Oracle, p: Plan, s: Run, task: RouteTask)
    ensures Ends(s, BuildRoute(o, p, s, task).0, FAULTS)
  {
    hide RouteFor, TlsFromSecret;
  }

  /* What looking for a URL may end with, by the way in which it is obtained. */
  function UrlVerdicts(access: Access, route: Option<Manifest>): set<Verdict> {
    FAULTS + {Requeued} +
    match access
    case ByNodePort => {Panicked(NoPorts)}
    case ByLoadBalancer => {Panicked(NilService)}
    case ByRoute => if route == None then {Panicked(NilRoute)} else {}
    case Nowhere => {}
  }

  lemma FindUrlEnds(o: Oracle, p: Plan, s: Run, service: Manifest, access: Access, route: Option<Manifest>)
    ensures Ends(s, FindUrl(o, p, s, service, access, route).0, UrlVerdicts(access, route))
  {
    hide EnsureSame, NodeUrl, RouteUrl;
    var u := EnsureSame(o, p, s, service, SameService).0;
    EnsureSameEnds(o, p, s, service, SameService);
    if route.Some? { EnsureSameEnds(o, p, u, route.value, SameRoute); }
  }

  lemma KeycloakUrlEnds(o: Oracle, p: Plan, s: Run, route: Option<Manifest>)
    ensures Ends(s, KeycloakUrl(o, p, s, route).0, UrlVerdicts(p.keycloakAccess, route))
  {
    hide FindUrl, UrlVerdicts;
    FindUrlEnds(o, p, s, p.keycloakService, p.keycloakAccess, route);
  }

  lemma KeycloakPartEnds(o: Oracle, p: Plan, s: Run, url: string)
    ensures var t := KeycloakPart(o, p, s, url);
      if s.halt == None && p.keycloakPod(url) == None then t.halt == Some(Panicked(NilPod)) else Ends(s, t, FAULTS)
  {
    hide EnsureSame, EnsureDeleted;
    var r := s.(st := s.st.(keycloakUrl := url));
    if p.keycloakPod(url).Some? { EnsureSameEnds(o, p, r, p.keycloakPod(url).value, SamePod); }
    var s1 := EnsureDeleted(o, r, p.keycloakPodKey);
    var s2 := EnsureDeleted(o, s1, p.keycloakService.key);
    EnsureDeletedEnds(o, r, p.keycloakPodKey);
    EnsureDeletedEnds(o, s1, p.keycloakService.key);
    EnsureDeletedEnds(o, s2, p.keycloakRoute.key);
  }

  lemma AppPartEnds(o: Oracle, p: Plan, s: Run, keycloakUrl: string, url: string)
    ensures Ends(s, AppPart(o, p, s, keycloakUrl, url), FAULTS)
  {
    hide EnsureSame;
    EnsureSameEnds(o, p, s.(st := s.st.(publicUrl := url)), p.appPod(keycloakUrl, url), SamePod);
  }

  lemma FinishEnds(o: Oracle, p: Plan, s: Run)
    ensures Ends(s, Finish(o, p, s), FAULTS + {Finished})
    ensures EnsureSame(o, p, s, p.upload, Exists).0.halt.Some? ==> Ends(s, Finish(o, p, s), FAULTS)
  {
    hide EnsureSame;
    EnsureSameEnds(o, p, s, p.upload, Exists);
  }

  // Whole runs

  lemma PrologueEnds(o: Oracle, p: Plan, s: Run)
    requires s.halt == None
    ensures Ends(s, Prologue(o, p, s), FAULTS)
    ensures Prologue(o, p, s).halt == None ==> !p.hostMissing && Prologue(o, p, s).st.phase == Ready
  {
  }

  lemma StagesEnd(o: Oracle, p: Plan, s: Run)
    requires s.halt == None
    ensures var g := StagesOf(o, p, s);
      && Ends(s, g.s0, FAULTS) && Ends(g.s0, g.s1, FAULTS) && Ends(g.s1, g.s2, FAULTS) && Ends(g.s2, g.s3, FAULTS)
      && Ends(g.s3, g.s4, FAULTS) && Ends(g.s4, g.s5, UrlVerdicts(p.keycloakAccess, g.keycloakRoute))
      && (if g.s5.halt == None && p.keycloakPod(g.keycloakUrl) == None then g.s6.halt == Some(Panicked(NilPod))
          else Ends(g.s5, g.s6, FAULTS))
      && Ends(g.s6, g.s7, FAULTS) && Ends(g.s7, g.s8, UrlVerdicts(p.appAccess, g.appRoute))
      && Ends(g.s8, g.s9, FAULTS) && Ends(g.s9, g.end, FAULTS + {Finished})
      && (EnsureSame(o, p, g.s9, p.upload, Exists).0.halt.Some? ==> Ends(g.s9, g.end, FAULTS))
  {
    hide Ends, StagesOf, Prologue, TrustPart, SecretsPart, PostgresPart, BuildRoute, KeycloakUrl, KeycloakPart;
    hide FindUrl, AppPart, Finish, EnsureSame, UrlVerdicts;
    var g := StagesOf(o, p, s);
    FirstStage(o, p, s);
    StageSteps(o, p, s);
    PrologueEnds(o, p, s);
    TrustPartEnds(o, p, g.s0);
    SecretsPartEnds(o, p, g.s1);
    PostgresPartEnds(o, p, g.s2);
    BuildRouteEnds(o, p, g.s3, p.keycloakRoute);
    KeycloakUrlEnds(o, p, g.s4, g.keycloakRoute);
    KeycloakPartEnds(o, p, g.s5, g.keycloakUrl);
    BuildRouteEnds(o, p, g.s6, p.appRoute);
    FindUrlEnds(o, p, g.s7, p.appService, p.appAccess, g.appRoute);
    AppPartEnds(o, p, g.s8, g.keycloakUrl, g.url);
    FinishEnds(o, p, g.s9);
  }

  /** A run finishes only if it got through every one of its parts. */
  lemma FinishedWentThrough(o: Oracle, p: Plan, s: Run)
    requires s.halt == None && Execute(o, p, s).halt == Some(Finished)
    ensures var g := StagesOf(o, p, s);
      g.s9.halt == None && EnsureSame(o, p, g.s9, p.upload, Exists).0.halt == None
  {
    hide StagesOf, EnsureSame, Execute;
    StagesEnd(o, p, s);
    StageSteps(o, p, s);
  }
}
