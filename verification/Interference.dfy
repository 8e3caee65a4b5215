/**
  Non-interference: a reconciliation neither reads nor writes anything outside
  the namespace of its resource.  What it does is the same whatever the other
  namespaces hold, at each of its calls, so reconciliations of resources in
  different namespaces commute, also when they are interleaved call by call.
 */
module Interference {
  import opened Wrappers
  import opened Trees
  import opened Resources
  import opened HorreumApi
  import opened Matching
  import opened Worlds
  import opened Plans
  import opened Steps
  import opened Builders
  import opened Reconciling
  import opened Safety
  import opened Effects
  import opened Histories
  import Names

  /* An oracle that makes the same choices, finds nothing in other namespaces, and
     answers the calls before this number in the same way. */
  ghost predicate Blinded(o: Oracle, b: Oracle, n: nat) {
    && b == o.(reply := b.reply, foreign := b.foreign)
    && (forall k: nat :: b.foreign(k) == map[])
    && (forall k: nat | k < n :: b.reply(k) == o.reply(k))
  }

  function Masked(w: World): World {
    w.(away := map[])
  }

  function Mask(s: Run): Run {
    s.(w := Masked(s.w))
  }

  /* The other namespaces are as the last call found them: nobody wrote to them. */
  predicate Apart(o: Oracle, w: World, w': World) {
    && w'.ns == w.ns && w.clock <= w'.clock
    && w'.away == if w'.clock == w.clock then w.away else o.foreign(w'.clock - 1)
  }

  lemma ApartOn(o: Oracle, a: World, b: World, c: World)
    requires Apart(o, a, b) && Apart(o, b, c)
    ensures Apart(o, a, c)
  {
  }

  /* A step from s to t that is the same without the other namespaces, and that
     depends on no answer of a later call. */
  predicate Blindly(o: Oracle, n: nat, s: Run, t: Run, masked: Run) {
    Apart(o, s.w, t.w) && s.w.clock <= t.w.clock && (t.w.clock <= n ==> masked == Mask(t))
  }

  lemma BlindlyOn(o: Oracle, n: nat, s: Run, t: Run, u: Run, masked: Run)
    requires Apart(o, s.w, t.w) && s.w.clock <= t.w.clock && Blindly(o, n, t, u, masked)
    ensures Blindly(o, n, s, u, masked)
  {
    ApartOn(o, s.w, t.w, u.w);
  }

  // API calls

  lemma GetIsBlind(o: Oracle, b: Oracle, n: nat, w: World, k: Key)
    requires Blinded(o, b, n)
    requires k.ns == w.ns
    ensures var (w', fetch) := Get(o, w, k);
      Apart(o, w, w') && (w'.clock <= n ==> Get(b, Masked(w), k) == (Masked(w'), fetch))
  {
  }

  lemma CreateIsBlind(o: Oracle, b: Oracle, n: nat, w: World, owner: Owner, m: Manifest)
    requires Blinded(o, b, n)
    requires m.key.ns == w.ns
    ensures var (w', ack) := Create(o, w, owner, m);
      Apart(o, w, w') && (w'.clock <= n ==> Create(b, Masked(w), owner, m) == (Masked(w'), ack))
  {
    hide Encode;
    LiveIsBlind(o, b, n, w.clock, owner, m);
    hide Live;
  }

  lemma LiveIsBlind(o: Oracle, b: Oracle, n: nat, call: nat, owner: Owner, m: Manifest)
    requires Blinded(o, b, n)
    ensures Live(b, call, owner, m) == Live(o, call, owner, m)
  {
    hide Encode, Derives;
  }

  lemma DeleteIsBlind(o: Oracle, b: Oracle, n: nat, w: World, k: Key)
    requires Blinded(o, b, n)
    requires k.ns == w.ns
    ensures var (w', ack) := Delete(o, w, k);
      Apart(o, w, w') && (w'.clock <= n ==> Delete(b, Masked(w), k) == (Masked(w'), ack))
  {
  }

  lemma SetStatusIsBlind(o: Oracle, b: Oracle, n: nat, s: Run, phase: Phase, reason: Reason)
    requires Blinded(o, b, n)
    ensures var t := SetStatus(o, s, phase, reason);
      Blindly(o, n, s, t, SetStatus(b, Mask(s), phase, reason)) && t.w == s.w
  {
  }

  lemma QuitIsBlind(o: Oracle, b: Oracle, n: nat, s: Run, phase: Phase, reason: Reason, verdict: Verdict)
    requires Blinded(o, b, n)
    ensures Blindly(o, n, s, Quit(o, s, phase, reason, verdict), Quit(b, Mask(s), phase, reason, verdict))
  {
    hide SetStatus;
    SetStatusIsBlind(o, b, n, s, phase, reason);
  }

  // The steps

  lemma CreateStepIsBlind(o: Oracle, b: Oracle, n: nat, p: Plan, s: Run, want: Manifest)
    requires Blinded(o, b, n)
    requires want.key.ns == s.w.ns
    ensures Blindly(o, n, s, CreateStep(o, p, s, want), CreateStep(b, p, Mask(s), want))
  {
    hide Create, Quit, SetStatus;
    CreateIsBlind(o, b, n, s.w, p.owner, want);
    var u := s.(w := Create(o, s.w, p.owner, want).0);
    QuitIsBlind(o, b, n, u, Error, CannotCreate(want.key), Failed);
    SetStatusIsBlind(o, b, n, u, Pending, Creating(want.key));
  }

  lemma ReplaceStepIsBlind(o: Oracle, b: Oracle, n: nat, p: Plan, s: Run, want: Manifest)
    requires Blinded(o, b, n)
    requires want.key.ns == s.w.ns
    ensures Blindly(o, n, s, ReplaceStep(o, p, s, want), ReplaceStep(b, p, Mask(s), want))
  {
    hide Delete, Quit, CreateStep;
    DeleteIsBlind(o, b, n, s.w, want.key);
    var u := s.(w := Delete(o, s.w, want.key).0);
    QuitIsBlind(o, b, n, u, Error, CannotDelete(want.key), Failed);
    CreateStepIsBlind(o, b, n, p, u, want);
  }

  lemma CheckStepIsBlind(o: Oracle, b: Oracle, n: nat, s: Run, key: Key, mode: Mode, have: Obj)
    requires Blinded(o, b, n)
    ensures Blindly(o, n, s, CheckStep(o, s, key, mode, have), CheckStep(b, Mask(s), key, mode, have))
  {
    hide CheckProblem, SetStatus;
    match CheckProblem(mode, key, have)
    case None =>
    case Some(problem) => SetStatusIsBlind(o, b, n, s, problem.phase, problem.reason);
  }

  lemma EnsureSameIsBlind(o: Oracle, b: Oracle, n: nat, p: Plan, s: Run, want: Manifest, mode: Mode)
    requires Blinded(o, b, n)
    requires want.key.ns == s.w.ns
    ensures var (t, out) := EnsureSame(o, p, s, want, mode);
      var (t', out') := EnsureSame(b, p, Mask(s), want, mode);
      Blindly(o, n, s, t, t') && (t.w.clock <= n ==> out' == out)
  {
    hide Get, Quit, CreateStep, ReplaceStep, CheckStep, Matches, Apart;
    StandingStill(o, s);
    if s.halt == None {
      GetIsBlind(o, b, n, s.w, want.key);
      var (w, fetch) := Get(o, s.w, want.key);
      var u := s.(w := w);
      var t, t' := EnsureSame(o, p, s, want, mode).0, EnsureSame(b, p, Mask(s), want, mode).0;
      match fetch
      case Died =>
      case Unavailable =>
        QuitIsBlind(o, b, n, u, Error, CannotFind(want.key), Failed);
        BlindlyOn(o, n, s, u, t, t');
      case NotFound =>
        CreateStepIsBlind(o, b, n, p, u, want);
        BlindlyOn(o, n, s, u, t, t');
      case Found(have) =>
        FoundIsBlind(o, b, n, p, u, want, mode, have);
        BlindlyOn(o, n, s, u, t, t');
    }
  }

  lemma StandingStill(o: Oracle, s: Run)
    ensures Apart(o, s.w, s.w)
  {
  }

  lemma FoundIsBlind(o: Oracle, b: Oracle, n: nat, p: Plan, s: Run, want: Manifest, mode: Mode, have: Obj)
    requires Blinded(o, b, n)
    requires want.key.ns == s.w.ns
    ensures Matches(mode, want, have) ==>
      Blindly(o, n, s, CheckStep(o, s, want.key, mode, have), CheckStep(b, Mask(s), want.key, mode, have))
    ensures !Matches(mode, want, have) ==>
      Blindly(o, n, s, ReplaceStep(o, p, s, want), ReplaceStep(b, p, Mask(s), want))
  {
    hide ReplaceStep, CheckStep, Matches, Blindly;
    CheckStepIsBlind(o, b, n, s, want.key, mode, have);
    ReplaceStepIsBlind(o, b, n, p, s, want);
  }

  lemma EnsureDeletedIsBlind(o: Oracle, b: Oracle, n: nat, s: Run, k: Key)
    requires Blinded(o, b, n)
    requires k.ns == s.w.ns
    ensures Blindly(o, n, s, EnsureDeleted(o, s, k), EnsureDeleted(b, Mask(s), k))
  {
    hide Get, Delete, Quit;
    GetIsBlind(o, b, n, s.w, k);
    var u := s.(w := Get(o, s.w, k).0);
    QuitIsBlind(o, b, n, u, Error, CannotFind(k), Failed);
    DeleteIsBlind(o, b, n, u.w, k);
    QuitIsBlind(o, b, n, u.(w := Delete(o, u.w, k).0), Error, CannotDelete(k), Failed);
  }

  lemma CreateIfMissingIsBlind(o: Oracle, b: Oracle, n: nat, p: Plan, s: Run, k: Key, made: Option<Manifest>)
    requires Blinded(o, b, n)
    requires k.ns == s.w.ns && (made.Some? ==> made.value.key == k)
    ensures Blindly(o, n, s, CreateIfMissing(o, p, s, k, made), CreateIfMissing(b, p, Mask(s), k, made))
  {
    hide Get, Create;
    GetIsBlind(o, b, n, s.w, k);
    if made.Some? { CreateIsBlind(o, b, n, Get(o, s.w, k).0, p.owner, made.value); }
  }

  lemma MakeAuthorityIsBlind(o: Oracle, b: Oracle, n: nat, p: Plan, s: Run)
    requires Blinded(o, b, n) && p.caKey.ns == s.w.ns
    ensures var (t, a) := MakeAuthority(o, p, s);
      var (t', a') := MakeAuthority(b, p, Mask(s));
      Blindly(o, n, s, t, t') && (t.w.clock <= n ==> a' == a)
  {
    hide Create, Quit, CaSecret, CaCertificate;
    if o.rsa(s.w.clock).Some? {
      var secret := CaSecret(p, o.rsa(s.w.clock).value);
      SecretHasKey(p, o.rsa(s.w.clock).value);
      CreateIsBlind(o, b, n, s.w, p.owner, secret);
      QuitIsBlind(o, b, n, s.(w := Create(o, s.w, p.owner, secret).0), Error, CannotCreateCaSecret, Failed);
    }
  }

  lemma LoadAuthorityIsBlind(o: Oracle, b: Oracle, n: nat, p: Plan, s: Run)
    requires Blinded(o, b, n) && p.caKey.ns == s.w.ns
    ensures var (t, a) := LoadAuthority(o, p, s);
      var (t', a') := LoadAuthority(b, p, Mask(s));
      Blindly(o, n, s, t, t') && (t.w.clock <= n ==> a' == a)
  {
    hide Get, MakeAuthority, ReadAuthority;
    GetIsBlind(o, b, n, s.w, p.caKey);
    MakeAuthorityIsBlind(o, b, n, p, s.(w := Get(o, s.w, p.caKey).0));
  }

  lemma SecretHasKey(p: Plan, key: PrivateKey)
    ensures CaSecret(p, key).key == p.caKey
  {
  }

  lemma CertSecretIsBlind(o: Oracle, b: Oracle, n: nat, call: nat, p: Plan, ca: Authority, task: CertTask)
    requires Blinded(o, b, n)
    ensures CertSecret(b, call, p, ca, task) == CertSecret(o, call, p, ca, task)
    ensures CertSecret(o, call, p, ca, task).Some? ==> CertSecret(o, call, p, ca, task).value.key == task.key
  {
    hide ServiceCertificate;
  }

  lemma CertIsBlind(o: Oracle, b: Oracle, n: nat, p: Plan, s: Run, authority: Option<Authority>, task: CertTask)
    requires Blinded(o, b, n)
    requires task.key.ns == s.w.ns
    ensures Blindly(o, n, s, CreateServiceCert(o, p, s, authority, task),
                    CreateServiceCert(b, p, Mask(s), authority, task))
  {
    hide CreateIfMissing, CertSecret;
    if authority.Some? {
      CertSecretIsBlind(o, b, n, s.w.clock + 1, p, authority.value, task);
      CreateIfMissingIsBlind(o, b, n, p, s, task.key, CertSecret(o, s.w.clock + 1, p, authority.value, task));
    }
  }

  lemma CreateCAIsBlind(o: Oracle, b: Oracle, n: nat, p: Plan, s: Run)
    requires Blinded(o, b, n)
    requires p.caKey.ns == s.w.ns && p.trustKey.ns == s.w.ns
    ensures var (t, a) := CreateCA(o, p, s);
      var (t', a') := CreateCA(b, p, Mask(s));
      Blindly(o, n, s, t, t') && (t.w.clock <= n ==> a' == a)
  {
    hide LoadAuthority, CreateIfMissing;
    LoadAuthorityIsBlind(o, b, n, p, s);
    var (t, a) := LoadAuthority(o, p, s);
    if a.Some? { CreateIfMissingIsBlind(o, b, n, p, t, p.trustKey, Some(TrustBundle(p, a.value))); }
  }

  // The parts

  /* The run is about the namespace of the plan. */
  lemma OwnKeys(p: Plan, s: Run)
    requires WellFormed(p) && InPlace(p, s)
    ensures forall k | k in Footprint(p) :: k.ns == s.w.ns
    ensures p.caKey in Footprint(p) && p.trustKey in Footprint(p) && p.appCert.key in Footprint(p)
    ensures p.keycloakCert.key in Footprint(p)
  {
    forall k | k in Footprint(p) ensures k.ns == s.w.ns { FootprintIsLocal(p, k); }
  }

  lemma TrustPartIsBlind(o: Oracle, b: Oracle, n: nat, p: Plan, s: Run)
    requires Blinded(o, b, n)
    requires WellFormed(p) && InPlace(p, s)
    ensures Blindly(o, n, s, TrustPart(o, p, s), TrustPart(b, p, Mask(s)))
  {
    hide EnsureSame, CreateCA, CreateServiceCert, WellFormed, Footprint;
    OwnKeys(p, s);
    EnsureSameIsBlind(o, b, n, p, s, TrustManifest(p), Exists);
    CreateCAIsBlind(o, b, n, p, s);
    var (s1, a) := CreateCA(o, p, s);
    CertIsBlind(o, b, n, p, s1, a, p.appCert);
    CertIsBlind(o, b, n, p, CreateServiceCert(o, p, s1, a, p.appCert), a, p.keycloakCert);
  }

  lemma SecretStepIsBlind(o: Oracle, b: Oracle, n: nat, p: Plan, s: Run, task: SecretTask)
    requires Blinded(o, b, n)
    requires task.key.ns == s.w.ns
    ensures Blindly(o, n, s, SecretStep(o, p, s, task), SecretStep(b, p, Mask(s), task))
  {
    hide EnsureSame;
    EnsureSameIsBlind(o, b, n, p, s, SecretManifest(o, s.w.clock, task), HasKeys(NeededKeys(task)));
  }

  lemma SecretsPartIsBlind(o: Oracle, b: Oracle, n: nat, p: Plan, s: Run)
    requires Blinded(o, b, n)
    requires WellFormed(p) && InPlace(p, s)
    ensures Blindly(o, n, s, SecretsPart(o, p, s), SecretsPart(b, p, Mask(s)))
  {
    hide SecretStep, WellFormed, Footprint, SecretKeys;
    OwnKeys(p, s);
    FootprintHas(p);
    SecretTasks(p);
    var s1 := SecretStep(o, p, s, p.dbAdmin);
    var s2 := SecretStep(o, p, s1, p.appUser);
    var s3 := SecretStep(o, p, s2, p.keycloakAdmin);
    var s4 := SecretStep(o, p, s3, p.keycloakDb);
    SecretStepIsBlind(o, b, n, p, s, p.dbAdmin);
    SecretStepIsBlind(o, b, n, p, s1, p.appUser);
    SecretStepIsBlind(o, b, n, p, s2, p.keycloakAdmin);
    SecretStepIsBlind(o, b, n, p, s3, p.keycloakDb);
    SecretStepIsBlind(o, b, n, p, s4, p.admin);
  }

  lemma SecretTasks(p: Plan)
    ensures p.dbAdmin.key in SecretKeys(p) && p.appUser.key in SecretKeys(p) && p.keycloakAdmin.key in SecretKeys(p)
    ensures p.keycloakDb.key in SecretKeys(p) && p.admin.key in SecretKeys(p)
  {
  }

  lemma PostgresPartIsBlind(o: Oracle, b: Oracle, n: nat, p: Plan, s: Run)
    requires Blinded(o, b, n)
    requires WellFormed(p) && InPlace(p, s)
    ensures Blindly(o, n, s, PostgresPart(o, p, s), PostgresPart(b, p, Mask(s)))
  {
    hide EnsureSame, EnsureDeleted, WellFormed, Footprint;
    OwnKeys(p, s);
    FootprintHas(p);
    if p.postgres {
      var s1 := EnsureSame(o, p, s, p.postgresMap, SameData).0;
      EnsureSameIsBlind(o, b, n, p, s, p.postgresMap, SameData);
      EnsureSameIsBlind(o, b, n, p, s1, p.postgresPod, SamePod);
      EnsureSameIsBlind(o, b, n, p, EnsureSame(o, p, s1, p.postgresPod, SamePod).0, p.postgresService, SameService);
    } else {
      EnsureDeletedIsBlind(o, b, n, s, p.postgresPod.key);
      EnsureDeletedIsBlind(o, b, n, EnsureDeleted(o, s, p.postgresPod.key), p.postgresService.key);
    }
  }

  lemma ReadTlsIsBlind(o: Oracle, b: Oracle, n: nat, p: Plan, s: Run, task: RouteTask)
    requires Blinded(o, b, n)
    requires InPlace(p, s)
    ensures var (t, data) := ReadTlsSecret(o, p, s, task);
      var (t', data') := ReadTlsSecret(b, p, Mask(s), task);
      Blindly(o, n, s, t, t') && (t.w.clock <= n ==> data' == data)
  {
    hide Get, Quit;
    GetIsBlind(o, b, n, s.w, TlsKey(p, task));
    QuitIsBlind(o, b, n, s.(w := Get(o, s.w, TlsKey(p, task)).0), Error, CannotFindSecret(task.reported), Failed);
  }

  lemma BuildRouteIsBlind(o: Oracle, b: Oracle, n: nat, p: Plan, s: Run, task: RouteTask)
    requires Blinded(o, b, n)
    requires InPlace(p, s)
    ensures var (t, route) := BuildRoute(o, p, s, task);
      var (t', route') := BuildRoute(b, p, Mask(s), task);
      Blindly(o, n, s, t, t') && (t.w.clock <= n ==> route' == route)
  {
    hide ReadTlsSecret, TlsFromSecret;
    ReadTlsIsBlind(o, b, n, p, s, task);
  }

  lemma NodePortUrlIsBlind(o: Oracle, b: Oracle, n: nat, p: Plan, s: Run, service: Manifest)
    requires Blinded(o, b, n)
    requires service.key.ns == s.w.ns
    ensures var (t, url) := NodePortUrl(o, p, s, service);
      var (t', url') := NodePortUrl(b, p, Mask(s), service);
      Blindly(o, n, s, t, t') && (t.w.clock <= n ==> url' == url)
  {
    hide Get, Quit, NodeUrl;
    GetIsBlind(o, b, n, s.w, service.key);
    QuitIsBlind(o, b, n, s.(w := Get(o, s.w, service.key).0), Pending, WaitingForNodePort(service.key), Requeued);
  }

  lemma LoadBalancerUrlIsBlind(o: Oracle, b: Oracle, n: nat, s: Run, service: Manifest)
    requires Blinded(o, b, n)
    requires service.key.ns == s.w.ns
    ensures var (t, url) := LoadBalancerUrl(o, s, service);
      var (t', url') := LoadBalancerUrl(b, Mask(s), service);
      Blindly(o, n, s, t, t') && (t.w.clock <= n ==> url' == url)
  {
    hide Get, Quit;
    GetIsBlind(o, b, n, s.w, service.key);
    QuitIsBlind(o, b, n, s.(w := Get(o, s.w, service.key).0), Pending, WaitingForUrl(service.key), Requeued);
  }

  lemma RoutedUrlIsBlind(o: Oracle, b: Oracle, n: nat, p: Plan, s: Run, service: Manifest, route: Option<Manifest>)
    requires Blinded(o, b, n)
    requires route.Some? ==> route.value.key.ns == s.w.ns
    ensures var (t, url) := RoutedUrl(o, p, s, service, route);
      var (t', url') := RoutedUrl(b, p, Mask(s), service, route);
      Blindly(o, n, s, t, t') && (t.w.clock <= n ==> url' == url)
  {
    hide EnsureSame, Quit, RouteUrl;
    if route.Some? {
      EnsureSameIsBlind(o, b, n, p, s, route.value, SameRoute);
      var u := EnsureSame(o, p, s, route.value, SameRoute).0;
      QuitIsBlind(o, b, n, u, Pending, WaitingForUrl(service.key), Requeued);
    }
  }

  lemma FindUrlIsBlind(
    o: Oracle, b: Oracle, n: nat, p: Plan, s: Run, service: Manifest, access: Access, route: Option<Manifest>)
    requires Blinded(o, b, n)
    requires service.key.ns == s.w.ns && (route.Some? ==> route.value.key.ns == s.w.ns)
    ensures var (t, url) := FindUrl(o, p, s, service, access, route);
      var (t', url') := FindUrl(b, p, Mask(s), service, access, route);
      Blindly(o, n, s, t, t') && (t.w.clock <= n ==> url' == url)
  {
    hide EnsureSame, NodePortUrl, LoadBalancerUrl, RoutedUrl, Quit;
    EnsureSameIsBlind(o, b, n, p, s, service, SameService);
    var u := EnsureSame(o, p, s, service, SameService).0;
    NodePortUrlIsBlind(o, b, n, p, u, service);
    LoadBalancerUrlIsBlind(o, b, n, u, service);
    RoutedUrlIsBlind(o, b, n, p, u, service, route);
    QuitIsBlind(o, b, n, u, Pending, WaitingForUrl(service.key), Requeued);
  }

  lemma KeycloakUrlIsBlind(o: Oracle, b: Oracle, n: nat, p: Plan, s: Run, route: Option<Manifest>)
    requires Blinded(o, b, n)
    requires p.keycloakService.key.ns == s.w.ns && (route.Some? ==> route.value.key.ns == s.w.ns)
    ensures var (t, url) := KeycloakUrl(o, p, s, route);
      var (t', url') := KeycloakUrl(b, p, Mask(s), route);
      Blindly(o, n, s, t, t') && (t.w.clock <= n ==> url' == url)
  {
    hide FindUrl;
    FindUrlIsBlind(o, b, n, p, s, p.keycloakService, p.keycloakAccess, route);
  }

  lemma KeycloakPartIsBlind(o: Oracle, b: Oracle, n: nat, p: Plan, s: Run, url: string)
    requires Blinded(o, b, n)
    requires WellFormed(p) && InPlace(p, s)
    ensures Blindly(o, n, s, KeycloakPart(o, p, s, url), KeycloakPart(b, p, Mask(s), url))
  {
    hide EnsureSame, EnsureDeleted, Footprint, SecretsFormed, MapsFormed, RoutesFormed;
    OwnKeys(p, s);
    FootprintHas(p);
    var r := s.(st := s.st.(keycloakUrl := url));
    if p.keycloakPod(url).Some? { EnsureSameIsBlind(o, b, n, p, r, p.keycloakPod(url).value, SamePod); }
    var s1 := EnsureDeleted(o, r, p.keycloakPodKey);
    var s2 := EnsureDeleted(o, s1, p.keycloakService.key);
    EnsureDeletedIsBlind(o, b, n, r, p.keycloakPodKey);
    EnsureDeletedIsBlind(o, b, n, s1, p.keycloakService.key);
    EnsureDeletedIsBlind(o, b, n, s2, p.keycloakRoute.key);
  }

  lemma AppPartIsBlind(o: Oracle, b: Oracle, n: nat, p: Plan, s: Run, keycloakUrl: string, url: string)
    requires Blinded(o, b, n)
    requires WellFormed(p) && InPlace(p, s)
    ensures Blindly(o, n, s, AppPart(o, p, s, keycloakUrl, url), AppPart(b, p, Mask(s), keycloakUrl, url))
  {
    hide EnsureSame, Footprint, SecretsFormed, MapsFormed, RoutesFormed;
    OwnKeys(p, s);
    FootprintHas(p);
    EnsureSameIsBlind(o, b, n, p, s.(st := s.st.(publicUrl := url)), p.appPod(keycloakUrl, url), SamePod);
  }

  lemma FinishIsBlind(o: Oracle, b: Oracle, n: nat, p: Plan, s: Run)
    requires Blinded(o, b, n)
    requires p.upload.key.ns == s.w.ns
    ensures Blindly(o, n, s, Finish(o, p, s), Finish(b, p, Mask(s)))
  {
    hide EnsureSame;
    EnsureSameIsBlind(o, b, n, p, s, p.upload, Exists);
  }

  lemma PrologueIsBlind(o: Oracle, b: Oracle, n: nat, p: Plan, s: Run)
    requires Blinded(o, b, n)
    ensures Blindly(o, n, s, Prologue(o, p, s), Prologue(b, p, Mask(s)))
  {
    hide Quit;
    QuitIsBlind(o, b, n, s, Error, NodeHostMissing, Failed);
  }

  // Whole runs

  lemma EarlyStagesAreBlind(o: Oracle, b: Oracle, n: nat, p: Plan, s: Run)
    requires Blinded(o, b, n)
    requires WellFormed(p) && InPlace(p, s) && s.halt == None
    ensures var g, g' := StagesOf(o, p, s), StagesOf(b, p, Mask(s));
      && Blindly(o, n, s, g.s4, g'.s4)
      && (g.s4.w.clock <= n ==> g'.keycloakRoute == g.keycloakRoute)
  {
    hide WellFormed, Footprint, InPlace, Staged, AllThere, StagesOf, Execute, Apart;
    hide TrustPart, SecretsPart, PostgresPart, BuildRoute, Prologue, KeycloakUrl, KeycloakPart, FindUrl;
    hide AppPart, Finish;
    var g := StagesOf(o, p, s);
    StagesHold(o, p, s);
    StageSteps(o, p, s);
    FirstStage(o, p, s);
    StageSteps(b, p, Mask(s));
    FirstStage(b, p, Mask(s));
    PrologueIsBlind(o, b, n, p, s);
    TrustPartIsBlind(o, b, n, p, g.s0);
    SecretsPartIsBlind(o, b, n, p, g.s1);
    PostgresPartIsBlind(o, b, n, p, g.s2);
    BuildRouteIsBlind(o, b, n, p, g.s3, p.keycloakRoute);
    ApartOn(o, s.w, g.s0.w, g.s1.w);
    ApartOn(o, s.w, g.s1.w, g.s2.w);
    ApartOn(o, s.w, g.s2.w, g.s3.w);
    ApartOn(o, s.w, g.s3.w, g.s4.w);
  }

  lemma FirstHalfIsBlind(o: Oracle, b: Oracle, n: nat, p: Plan, s: Run)
    requires Blinded(o, b, n)
    requires WellFormed(p) && InPlace(p, s) && s.halt == None
    ensures var g, g' := StagesOf(o, p, s), StagesOf(b, p, Mask(s));
      Blindly(o, n, s, g.s5, g'.s5) && (g.s5.w.clock <= n ==> g'.keycloakUrl == g.keycloakUrl)
  {
    hide WellFormed, Footprint, InPlace, Staged, AllThere, StagesOf, Execute, Apart;
    hide TrustPart, SecretsPart, PostgresPart, BuildRoute, Prologue, KeycloakUrl, KeycloakPart, FindUrl;
    hide AppPart, Finish;
    var g := StagesOf(o, p, s);
    StagesHold(o, p, s);
    StageSteps(o, p, s);
    StageSteps(b, p, Mask(s));
    EarlyStagesAreBlind(o, b, n, p, s);
    RouteIsOwn(o, p, g.s3, p.keycloakRoute);
    OwnKeys(p, g.s4);
    FootprintHas(p);
    KeycloakUrlIsBlind(o, b, n, p, g.s4, g.keycloakRoute);
    ApartOn(o, s.w, g.s4.w, g.s5.w);
  }

  lemma MiddleStagesAreBlind(o: Oracle, b: Oracle, n: nat, p: Plan, s: Run)
    requires Blinded(o, b, n)
    requires WellFormed(p) && InPlace(p, s) && s.halt == None
    ensures var g, g' := StagesOf(o, p, s), StagesOf(b, p, Mask(s));
      && Blindly(o, n, s, g.s7, g'.s7)
      && (g.s7.w.clock <= n ==> g'.keycloakUrl == g.keycloakUrl && g'.appRoute == g.appRoute)
  {
    hide WellFormed, Footprint, InPlace, Staged, AllThere, StagesOf, Execute, Apart;
    hide TrustPart, SecretsPart, PostgresPart, BuildRoute, Prologue, KeycloakUrl, KeycloakPart, FindUrl;
    hide AppPart, Finish;
    var g := StagesOf(o, p, s);
    StagesHold(o, p, s);
    StageSteps(o, p, s);
    StageSteps(b, p, Mask(s));
    FirstHalfIsBlind(o, b, n, p, s);
    KeycloakPartIsBlind(o, b, n, p, g.s5, g.keycloakUrl);
    BuildRouteIsBlind(o, b, n, p, g.s6, p.appRoute);
    ApartOn(o, s.w, g.s5.w, g.s6.w);
    ApartOn(o, s.w, g.s6.w, g.s7.w);
  }

  lemma RouteIsOwn(o: Oracle, p: Plan, s: Run, task: RouteTask)
    requires InPlace(p, s)
    ensures var route := BuildRoute(o, p, s, task).1; route.Some? ==> route.value.key == task.key
  {
    hide BuildRoute;
    BuildRouteProceeds(o, p, s, task);
  }

  lemma SecondHalfIsBlind(o: Oracle, b: Oracle, n: nat, p: Plan, s: Run)
    requires Blinded(o, b, n)
    requires WellFormed(p) && InPlace(p, s) && s.halt == None
    ensures Blindly(o, n, s, Execute(o, p, s), Execute(b, p, Mask(s)))
  {
    hide WellFormed, Footprint, InPlace, Staged, AllThere, StagesOf, Execute, Apart;
    hide TrustPart, SecretsPart, PostgresPart, BuildRoute, Prologue, KeycloakUrl, KeycloakPart, FindUrl;
    hide AppPart, Finish;
    var g := StagesOf(o, p, s);
    StagesHold(o, p, s);
    StageSteps(o, p, s);
    StageSteps(b, p, Mask(s));
    MiddleStagesAreBlind(o, b, n, p, s);
    RouteIsOwn(o, p, g.s6, p.appRoute);
    OwnKeys(p, g.s7);
    OwnKeys(p, g.s9);
    FootprintHas(p);
    FindUrlIsBlind(o, b, n, p, g.s7, p.appService, p.appAccess, g.appRoute);
    AppPartIsBlind(o, b, n, p, g.s8, g.keycloakUrl, g.url);
    FinishIsBlind(o, b, n, p, g.s9);
    ApartOn(o, s.w, g.s7.w, g.s8.w);
    ApartOn(o, s.w, g.s8.w, g.s9.w);
    ApartOn(o, s.w, g.s9.w, g.end.w);
  }

  /** A reconciliation does not look at other namespaces, and leaves them as its
      last call found them; nor does it depend on answers it has not waited for. */
  lemma ReconcileIsBlind(o: Oracle, b: Oracle, n: nat, env: Env, w: World)
    requires Blinded(o, b, n) && Sound(w)
    ensures var t := Reconcile(o, env, w);
      && Apart(o, w, t.w) && w.clock < t.w.clock
      && (t.w.clock <= n ==> Reconcile(b, env, Masked(w)) == Mask(t))
  {
    hide Execute, PlanOf, WellFormed;
    if w.cr.Some? {
      var p := PlanOf(env, w.cr.value);
      Names.PlanOwner(env, w.cr.value);
      Names.PlanIsWellFormed(env, w.cr.value);
      SecondHalfIsBlind(o, b, n, p, Run(Tick(o, w), w.cr.value.status, [], None));
    }
  }

  /* Two oracles that make the same choices and answer the calls before this
     number in the same way, whatever they find in other namespaces. */
  ghost predicate SameChoices(o: Oracle, o': Oracle, n: nat) {
    o' == o.(reply := o'.reply, foreign := o'.foreign) && forall k: nat | k < n :: o'.reply(k) == o.reply(k)
  }

  /** What a run does is decided by the answers to its own calls: not by what
      goes on in other namespaces, and not by answers it has not waited for. */
  lemma AnswersDecide(o: Oracle, o': Oracle, n: nat, env: Env, w: World, w': World)
    requires Sound(w) && SameChoices(o, o', n) && Masked(w) == Masked(w') && Reconcile(o, env, w).w.clock <= n
    ensures Mask(Reconcile(o, env, w)) == Mask(Reconcile(o', env, w'))
  {
    hide Reconcile;
    var b := o'.(foreign := (k: nat) => map[]);
    ReconcileIsBlind(o, b, n, env, w);
    ReconcileIsBlind(o', b, Reconcile(o', env, w').w.clock, env, w');
  }

  /** Every change of every run is in the namespace of its resource. */
  lemma ChangesAreAtHome(o: Oracle, env: Env, w: World)
    requires Sound(w)
    ensures var t := Reconcile(o, env, w);
      w.log <= t.w.log && forall i | |w.log| <= i < |t.w.log| :: EventKey(t.w.log[i]).ns == w.ns
  {
    hide Reconcile, PlanOf, Legal, Footprint, WellFormed;
    RunsAreSafe(o, env, w);
    if w.cr.Some? {
      var p := PlanOf(env, w.cr.value);
      Names.PlanIsWellFormed(env, w.cr.value);
      Names.PlanOwner(env, w.cr.value);
      var es := Changes(w, Reconcile(o, env, w));
      forall i | 0 <= i < |es| ensures EventKey(es[i]).ns == w.ns {
        assert Legal(p, es[i]);
        LegalKey(p, es[i]);
        FootprintIsLocal(p, EventKey(es[i]));
      }
      var t := Reconcile(o, env, w);
      assert forall i | |w.log| <= i < |t.w.log| :: t.w.log[i] == es[i - |w.log|];
    }
  }

  lemma LegalKey(p: Plan, e: Event)
    requires Legal(p, e)
    ensures EventKey(e) in Footprint(p)
  {
    hide Footprint, Grounded, Represents, Deletable;
  }

  predicate AllOf(h: map<Key, Obj>, ns: string) {
    forall k | k in h :: k.ns == ns
  }

  lemma StaysHome(o: Oracle, env: Env, w: World)
    requires Sound(w) && AllOf(w.home, w.ns)
    ensures AllOf(Reconcile(o, env, w).w.home, w.ns)
  {
    hide Reconcile, PlanOf, Explained, Footprint, WellFormed;
    RunsAreSafe(o, env, w);
    if w.cr.Some? {
      var p := PlanOf(env, w.cr.value);
      Names.PlanIsWellFormed(env, w.cr.value);
      Names.PlanOwner(env, w.cr.value);
      var t := Reconcile(o, env, w);
      forall k | k in t.w.home ensures k.ns == w.ns {
        if k in Footprint(p) { FootprintIsLocal(p, k); } else { OutsideStays(p, w.home, Changes(w, t), t.w.home, k); }
      }
    }
  }

  // One operator, call by call

  /* An operator at work on one resource, from the world it starts in. */
  datatype Operator = Operator(oracle: Oracle, env: Env, start: World)

  /* The same, stopped before the call with this number. */
  function Cut(o: Oracle, n: nat): Oracle {
    o.(reply := (k: nat) => if k < n then o.reply(k) else Crash)
  }

  /* The objects of its namespace after so many of its calls. */
  function After(op: Operator, calls: nat): map<Key, Obj> {
    Reconcile(Cut(op.oracle, op.start.clock + calls), op.env, op.start).w.home
  }

  /* The operator has made all its calls. */
  predicate Complete(op: Operator, calls: nat) {
    Reconcile(op.oracle, op.env, op.start).w.clock <= op.start.clock + calls
  }

  lemma AfterNothing(op: Operator)
    ensures After(op, 0) == op.start.home
  {
    hide Execute, PlanOf;
  }

  lemma AfterAll(op: Operator, calls: nat)
    requires Sound(op.start) && Complete(op, calls)
    ensures After(op, calls) == Reconcile(op.oracle, op.env, op.start).w.home
  {
    hide Reconcile;
    var n := op.start.clock + calls;
    AnswersDecide(op.oracle, Cut(op.oracle, n), n, op.env, op.start, op.start);
  }

  /* The same operator, finding other things in other namespaces. */
  ghost predicate Alike(a: Operator, a': Operator) {
    && a'.oracle == a.oracle.(foreign := a'.oracle.foreign)
    && a'.env == a.env && a'.start == a.start
  }

  lemma AfterAlike(a: Operator, a': Operator, calls: nat)
    requires Alike(a, a') && Sound(a.start)
    ensures After(a', calls) == After(a, calls)
    ensures Complete(a', calls) == Complete(a, calls)
  {
    hide Reconcile;
    var o, o' := Cut(a.oracle, a.start.clock + calls), Cut(a'.oracle, a.start.clock + calls);
    AnswersDecide(o, o', Reconcile(o, a.env, a.start).w.clock, a.env, a.start, a.start);
    var n := Reconcile(a.oracle, a.env, a.start).w.clock;
    AnswersDecide(a.oracle, a'.oracle, n, a.env, a.start, a.start);
  }

  lemma AfterStaysHome(op: Operator, calls: nat)
    requires Sound(op.start) && AllOf(op.start.home, op.start.ns)
    ensures AllOf(After(op, calls), op.start.ns)
  {
    hide Reconcile;
    StaysHome(Cut(op.oracle, op.start.clock + calls), op.env, op.start);
  }

  // Two operators on one cluster

  datatype Turn = First | Second

  function Inside(g: map<Key, Obj>, ns: string): map<Key, Obj> {
    map k | k in g && k.ns == ns :: g[k]
  }

  function Outside(g: map<Key, Obj>, ns: string): map<Key, Obj> {
    map k | k in g && k.ns != ns :: g[k]
  }

  function Turns(schedule: seq<Turn>, who: Turn): nat {
    if schedule == [] then 0
    else Turns(schedule[..|schedule| - 1], who) + if schedule[|schedule| - 1] == who then 1 else 0
  }

  /* The cluster after a turn of an operator: the objects of its namespace are
     those after this call, all others are left as they were. */
  function Write(g: map<Key, Obj>, op: Operator, calls: nat): map<Key, Obj> {
    Outside(g, op.start.ns) + After(op, calls)
  }

  /* The cluster that the two operators share, after these turns. */
  function Shared(g: map<Key, Obj>, a: Operator, b: Operator, schedule: seq<Turn>): map<Key, Obj> {
    if schedule == [] then g
    else
      var l := |schedule| - 1;
      var before := Shared(g, a, b, schedule[..l]);
      match schedule[l]
      case First => Write(before, a, Turns(schedule[..l], First) + 1)
      case Second => Write(before, b, Turns(schedule[..l], Second) + 1)
  }

  /* At this turn the operator finds, outside its namespace, the shared cluster. */
  predicate Sees(g: map<Key, Obj>, op: Operator, calls: nat) {
    op.oracle.foreign(op.start.clock + calls) == Outside(g, op.start.ns)
  }

  /* Both operators start in this cluster, and at each of their calls they find
     it as the turns so far have left it. */
  ghost predicate Scheduled(g: map<Key, Obj>, a: Operator, b: Operator, schedule: seq<Turn>) {
    && Sound(a.start) && Sound(b.start)
    && a.start.home == Inside(g, a.start.ns) && b.start.home == Inside(g, b.start.ns)
    && forall i | 0 <= i < |schedule| ::
         var now := Shared(g, a, b, schedule[..i]);
         if schedule[i] == First then Sees(now, a, Turns(schedule[..i], First))
         else Sees(now, b, Turns(schedule[..i], Second))
  }

  /* What was there of third parties. */
  function Others(g: map<Key, Obj>, a: Operator, b: Operator): map<Key, Obj> {
    Outside(Outside(g, a.start.ns), b.start.ns)
  }

  predicate NoneOf(h: map<Key, Obj>, ns: string) {
    forall k | k in h :: k.ns != ns
  }

  lemma SplitOutside(others: map<Key, Obj>, ha: map<Key, Obj>, hb: map<Key, Obj>, nsA: string, nsB: string)
    requires nsA != nsB && AllOf(ha, nsA) && AllOf(hb, nsB) && NoneOf(others, nsA)
    ensures Outside(others + ha + hb, nsA) == others + hb
  {
  }

  lemma SplitInside(others: map<Key, Obj>, ha: map<Key, Obj>, hb: map<Key, Obj>, nsA: string, nsB: string)
    requires nsA != nsB && AllOf(ha, nsA) && AllOf(hb, nsB) && NoneOf(others, nsA) && NoneOf(others, nsB)
    ensures Inside(others + ha + hb, nsA) == ha && Inside(others + ha + hb, nsB) == hb
  {
    assert Inside(others + ha + hb, nsA).Keys == ha.Keys;
    assert Inside(others + ha + hb, nsB).Keys == hb.Keys;
  }

  lemma Swap(others: map<Key, Obj>, ha: map<Key, Obj>, hb: map<Key, Obj>, nsA: string, nsB: string)
    requires nsA != nsB && AllOf(ha, nsA) && AllOf(hb, nsB)
    ensures others + ha + hb == others + hb + ha
  {
  }

  /* What a turn of the first operator, or of the second one, writes over. */
  lemma WriteFirst(
    others: map<Key, Obj>, ha: map<Key, Obj>, hb: map<Key, Obj>, after: map<Key, Obj>, nsA: string, nsB: string)
    requires nsA != nsB && AllOf(ha, nsA) && AllOf(hb, nsB) && AllOf(after, nsA) && NoneOf(others, nsA)
    ensures Outside(others + ha + hb, nsA) + after == others + after + hb
  {
    hide Outside;
    SplitOutside(others, ha, hb, nsA, nsB);
    Swap(others, after, hb, nsA, nsB);
  }

  lemma WriteSecond(others: map<Key, Obj>, ha: map<Key, Obj>, hb: map<Key, Obj>, nsA: string, nsB: string)
    requires nsA != nsB && AllOf(ha, nsA) && AllOf(hb, nsB) && NoneOf(others, nsB)
    ensures Outside(others + ha + hb, nsB) == others + ha
  {
    hide Outside;
    Swap(others, ha, hb, nsA, nsB);
    SplitOutside(others, hb, ha, nsB, nsA);
  }

  lemma WholeCluster(g: map<Key, Obj>, nsA: string, nsB: string)
    requires nsA != nsB
    ensures g == Outside(Outside(g, nsA), nsB) + Inside(g, nsA) + Inside(g, nsB)
    ensures NoneOf(Outside(Outside(g, nsA), nsB), nsA) && NoneOf(Outside(Outside(g, nsA), nsB), nsB)
    ensures AllOf(Inside(g, nsA), nsA) && AllOf(Inside(g, nsB), nsB)
  {
  }

  /** The shared cluster in closed form: whatever the schedule, it holds for each
      operator what it has after its own calls, and nothing else has changed. */
  lemma {:induction false} SharedIsSplit(g: map<Key, Obj>, a: Operator, b: Operator, schedule: seq<Turn>)
    requires a.start.ns != b.start.ns && Sound(a.start) && Sound(b.start)
    requires a.start.home == Inside(g, a.start.ns) && b.start.home == Inside(g, b.start.ns)
    ensures Shared(g, a, b, schedule) ==
      Others(g, a, b) + After(a, Turns(schedule, First)) + After(b, Turns(schedule, Second))
    decreases |schedule|
  {
    hide After, Outside, Inside, AllOf, NoneOf;
    var others := Others(g, a, b);
    WholeCluster(g, a.start.ns, b.start.ns);
    if schedule == [] {
      AfterNothing(a);
      AfterNothing(b);
    } else {
      var l := |schedule| - 1;
      SharedIsSplit(g, a, b, schedule[..l]);
      var fa, fb := After(a, Turns(schedule[..l], First)), After(b, Turns(schedule[..l], Second));
      AfterStaysHome(a, Turns(schedule[..l], First));
      AfterStaysHome(b, Turns(schedule[..l], Second));
      match schedule[l] {
        case First =>
          AfterStaysHome(a, Turns(schedule, First));
          WriteFirst(others, fa, fb, After(a, Turns(schedule, First)), a.start.ns, b.start.ns);
        case Second =>
          WriteSecond(others, fa, fb, a.start.ns, b.start.ns);
      }
    }
  }

  /** At each of its turns an operator finds in the shared cluster exactly the
      objects of its own namespace that it left there: nobody else wrote to them. */
  lemma OwnObjectsAreCurrent(g: map<Key, Obj>, a: Operator, b: Operator, schedule: seq<Turn>, i: nat)
    requires a.start.ns != b.start.ns && Scheduled(g, a, b, schedule) && i < |schedule|
    ensures var now := Shared(g, a, b, schedule[..i]);
      && Inside(now, a.start.ns) == After(a, Turns(schedule[..i], First))
      && Inside(now, b.start.ns) == After(b, Turns(schedule[..i], Second))
  {
    hide After, Shared, Outside, Inside, AllOf, NoneOf, Turns;
    SharedIsSplit(g, a, b, schedule[..i]);
    WholeCluster(g, a.start.ns, b.start.ns);
    var na, nb := Turns(schedule[..i], First), Turns(schedule[..i], Second);
    AfterStaysHome(a, na);
    AfterStaysHome(b, nb);
    SplitInside(Others(g, a, b), After(a, na), After(b, nb), a.start.ns, b.start.ns);
  }

  /** Reconciliations of resources in different namespaces commute.  Take two
      schedules of the calls of two operators on one cluster, one after the other
      or interleaved in any way, in which each finds at each of its calls the
      cluster as the turns so far have left it.  If both operators make the same
      number of calls, or get to make all of them, the cluster ends up the same. */
  lemma ReconcilesCommute(
    g: map<Key, Obj>, a: Operator, b: Operator, schedule: seq<Turn>,
    a': Operator, b': Operator, schedule': seq<Turn>)
    requires a.start.ns != b.start.ns && Alike(a, a') && Alike(b, b')
    requires Scheduled(g, a, b, schedule) && Scheduled(g, a', b', schedule')
    requires Turns(schedule, First) == Turns(schedule', First) ||
      (Complete(a, Turns(schedule, First)) && Complete(a, Turns(schedule', First)))
    requires Turns(schedule, Second) == Turns(schedule', Second) ||
      (Complete(b, Turns(schedule, Second)) && Complete(b, Turns(schedule', Second)))
    ensures Shared(g, a, b, schedule) == Shared(g, a', b', schedule')
  {
    hide After, Shared, Complete;
    SharedIsSplit(g, a, b, schedule);
    SharedIsSplit(g, a', b', schedule');
    AfterAlike(a, a', Turns(schedule', First));
    AfterAlike(b, b', Turns(schedule', Second));
    SameOutcome(a, Turns(schedule, First), Turns(schedule', First));
    SameOutcome(b, Turns(schedule, Second), Turns(schedule', Second));
  }

  lemma SameOutcome(op: Operator, m: nat, n: nat)
    requires Sound(op.start) && (m == n || (Complete(op, m) && Complete(op, n)))
    ensures After(op, m) == After(op, n)
  {
    hide After, Complete;
    if m != n {
      AfterAll(op, m);
      AfterAll(op, n);
    }
  }

  // Every schedule is possible

  lemma {:induction false} SharedAlike(
    g: map<Key, Obj>, a: Operator, b: Operator, a': Operator, b': Operator, schedule: seq<Turn>)
    requires Alike(a, a') && Alike(b, b') && Sound(a.start) && Sound(b.start)
    ensures Shared(g, a', b', schedule) == Shared(g, a, b, schedule)
    decreases |schedule|
  {
    hide Write, Turns;
    if schedule != [] {
      var l := |schedule| - 1;
      SharedAlike(g, a, b, a', b', schedule[..l]);
      var before := Shared(g, a, b, schedule[..l]);
      WriteAlike(before, a, a', Turns(schedule[..l], First) + 1);
      WriteAlike(before, b, b', Turns(schedule[..l], Second) + 1);
    }
  }

  lemma WriteAlike(g: map<Key, Obj>, a: Operator, a': Operator, calls: nat)
    requires Alike(a, a') && Sound(a.start)
    ensures Write(g, a', calls) == Write(g, a, calls)
  {
    hide After, Outside;
    AfterAlike(a, a', calls);
  }

  lemma {:induction false} TurnsGrow(schedule: seq<Turn>, who: Turn, i: nat)
    requires i <= |schedule|
    ensures Turns(schedule[..i], who) <= Turns(schedule, who)
    decreases |schedule|
  {
    if i < |schedule| {
      var l := |schedule| - 1;
      assert schedule[..l][..i] == schedule[..i];
      TurnsGrow(schedule[..l], who, i);
    } else {
      assert schedule[..i] == schedule;
    }
  }

  /* Where in the schedule the turn with this number of an operator is. */
  function Position(schedule: seq<Turn>, who: Turn, n: nat): (i: nat)
    ensures i <= |schedule|
  {
    if schedule == [] then 0
    else
      var l := |schedule| - 1;
      if schedule[l] == who && Turns(schedule[..l], who) == n then l else Position(schedule[..l], who, n)
  }

  lemma {:induction false} PositionOf(schedule: seq<Turn>, i: nat)
    requires i < |schedule|
    ensures Position(schedule, schedule[i], Turns(schedule[..i], schedule[i])) == i
    decreases |schedule|
  {
    var l, who := |schedule| - 1, schedule[i];
    if i < l {
      assert schedule[..l][..i] == schedule[..i];
      assert schedule[..l][..i + 1][..i] == schedule[..i];
      TurnsGrow(schedule[..l], who, i + 1);
      PositionOf(schedule[..l], i);
    }
  }

  /* An operator that makes the choices of another one and finds the cluster as
     the schedule has it. */
  function Viewing(g: map<Key, Obj>, a: Operator, b: Operator, schedule: seq<Turn>, who: Turn): Operator {
    var op := if who == First then a else b;
    op.(oracle := op.oracle.(foreign := (m: nat) =>
      var n := if m < op.start.clock then 0 else m - op.start.clock;
      Outside(Shared(g, a, b, schedule[..Position(schedule, who, n)]), op.start.ns)))
  }

  /** For every schedule of two operators there are ones that make the same choices
      and find the cluster, at each of their calls, as this schedule has it. */
  lemma EverySchedule(g: map<Key, Obj>, a: Operator, b: Operator, schedule: seq<Turn>)
    requires Sound(a.start) && Sound(b.start)
    requires a.start.home == Inside(g, a.start.ns) && b.start.home == Inside(g, b.start.ns)
    ensures var a', b' := Viewing(g, a, b, schedule, First), Viewing(g, a, b, schedule, Second);
      Alike(a, a') && Alike(b, b') && Scheduled(g, a', b', schedule)
  {
    hide Shared, Position, Turns;
    var a', b' := Viewing(g, a, b, schedule, First), Viewing(g, a, b, schedule, Second);
    forall i | 0 <= i < |schedule|
      ensures var now := Shared(g, a', b', schedule[..i]);
        if schedule[i] == First then Sees(now, a', Turns(schedule[..i], First))
        else Sees(now, b', Turns(schedule[..i], Second))
    {
      SharedAlike(g, a, b, a', b', schedule[..i]);
      PositionOf(schedule, i);
    }
  }
}
