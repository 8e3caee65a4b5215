/**
  The chain of trust without routes: controllers/certificates.go.  Wherever the
  operator stops, what it has left of the chain fits together.
 */
module TrustChain {
  import opened Wrappers
  import opened Trees
  import opened Resources
  import opened HorreumApi
  import opened Worlds
  import opened Plans
  import opened Steps
  import opened Effects
  import opened Builders
  import opened Reconciling
  import opened Safety
  import Names

  /* The keys of the chain, which depend on no more than the name of the resource. */
  datatype Chain = Chain(ns: string, ca: Key, bundle: Key, app: CertTask, keycloak: CertTask)

  function ChainOf(p: Plan): Chain {
    Chain(p.owner.ns, p.caKey, p.trustKey, p.appCert, p.keycloakCert)
  }

  function ChainFor(ns: string, name: string): Chain {
    Chain(ns, Key(SecretKind, ns, name + "-ca-certs"), Key(ConfigMapKind, ns, SERVICE_CA),
          CertTask(Key(SecretKind, ns, name + "-app-certs"), name, 1000),
          CertTask(Key(SecretKind, ns, name + "-keycloak-certs"), name + "-keycloak", 2000))
  }

  function ChainKeys(c: Chain): set<Key> {
    {c.ca, c.bundle, c.app.key, c.keycloak.key}
  }

  /* The CA secret holds a self-signed CA certificate and its private key. */
  predicate IsAuthority(obj: Obj) {
    && obj.Secret? && ReadAuthority(obj).Some?
    && ReadAuthority(obj).value.cert == CaCertificate(ReadAuthority(obj).value.key)
  }

  predicate IsBundle(obj: Obj, ca: Certificate) {
    obj.ConfigMap? && obj.binary == map[CABUNDLE := CertPem(ca)]
  }

  /* A service certificate signed by the CA, with the private key it belongs to. */
  predicate IsServiceCert(obj: Obj, ca: Authority, task: CertTask, ns: string, hosts: set<string>) {
    && obj.Secret? && TLSCERT in obj.data && TLSKEY in obj.data
    && obj.data[TLSCERT].CertPem? && obj.data[TLSKEY].KeyPem?
    && var cert := obj.data[TLSCERT].cert;
       && cert.signer == ca.key.public && cert.publicKey == obj.data[TLSKEY].key.public
       && cert.serial == task.serial && cert.commonName == task.service && !cert.isCA
       && exists host | host in hosts :: cert.sans == DnsNames(ServiceSans(task.service, ns, host))
  }

  /* What there is of the chain fits together; hosts are the node hosts that
     the certificates may have been made for. */
  predicate Trusted(c: Chain, hosts: set<string>, h: map<Key, Obj>) {
    && (c.bundle in h || c.app.key in h || c.keycloak.key in h ==> c.ca in h)
    && (c.ca in h ==> IsAuthority(h[c.ca]))
    && (c.bundle in h ==> IsBundle(h[c.bundle], ReadAuthority(h[c.ca]).value.cert))
    && (c.app.key in h ==> IsServiceCert(h[c.app.key], ReadAuthority(h[c.ca]).value, c.app, c.ns, hosts))
    && (c.keycloak.key in h ==> IsServiceCert(h[c.keycloak.key], ReadAuthority(h[c.ca]).value, c.keycloak, c.ns, hosts))
  }

  /* The chain is about its own four keys. */
  predicate SameAt(h: map<Key, Obj>, h': map<Key, Obj>, k: Key) {
    (k in h <==> k in h') && (k in h ==> h'[k] == h[k])
  }

  predicate SameChain(c: Chain, h: map<Key, Obj>, h': map<Key, Obj>) {
    SameAt(h, h', c.ca) && SameAt(h, h', c.bundle) && SameAt(h, h', c.app.key) && SameAt(h, h', c.keycloak.key)
  }

  lemma ChainStays(c: Chain, hosts: set<string>, h: map<Key, Obj>, h': map<Key, Obj>)
    requires Trusted(c, hosts, h) && SameChain(c, h, h')
    ensures Trusted(c, hosts, h')
  {
    hide IsAuthority, IsBundle, IsServiceCert;
  }

  // One run

  /* The first step: reading the CA secret or making it. */
  lemma AuthorityTrusted(o: Oracle, p: Plan, hosts: set<string>, s: Run)
    requires WellFormed(p) && InPlace(p, s) && Trusted(ChainOf(p), hosts, s.w.home)
    ensures var (t, authority) := LoadAuthority(o, p, s);
      && Trusted(ChainOf(p), hosts, t.w.home)
      && (t.halt == None ==> p.caKey in t.w.home && ReadAuthority(t.w.home[p.caKey]) == authority)
  {
    hide LoadAuthority, IsBundle, IsServiceCert, CaCertificate;
    LoadAuthorityShape(o, p, s);
    CertKinds(p);
    BundleKind(p);
    var t := LoadAuthority(o, p, s).0;
    if Kept(s, t) {
      assert Trusted(ChainOf(p), hosts, t.w.home);
    } else {
      var a :| NewAuthority(p, t.w.home[p.caKey], a);
      assert IsAuthority(t.w.home[p.caKey]);
    }
  }

  lemma BundleKind(p: Plan)
    requires WellFormed(p)
    ensures p.trustKey.kind == ConfigMapKind
    ensures p.caKey != p.appCert.key && p.caKey != p.keycloakCert.key && p.appCert.key != p.keycloakCert.key
  {
  }

  lemma BundleTrusted(p: Plan, hosts: set<string>, s: Run, t: Run, ca: Authority)
    requires WellFormed(p) && Trusted(ChainOf(p), hosts, s.w.home)
    requires p.caKey in s.w.home && ReadAuthority(s.w.home[p.caKey]) == Some(ca)
    requires Provisioned(s, t, p.trustKey, Some(TrustBundle(p, ca)))
    ensures Trusted(ChainOf(p), hosts, t.w.home) && SameAt(s.w.home, t.w.home, p.caKey)
  {
    hide IsAuthority, IsServiceCert, ReadAuthority;
    BundleKind(p);
    CertKinds(p);
  }

  lemma CertTrusted(o: Oracle, n: nat, p: Plan, hosts: set<string>, s: Run, t: Run, ca: Authority, task: CertTask)
    requires WellFormed(p) && Trusted(ChainOf(p), hosts, s.w.home) && p.nodeHost in hosts
    requires p.caKey in s.w.home && ReadAuthority(s.w.home[p.caKey]) == Some(ca)
    requires task == p.appCert || task == p.keycloakCert
    requires Provisioned(s, t, task.key, CertSecret(o, n, p, ca, task))
    ensures Trusted(ChainOf(p), hosts, t.w.home) && SameAt(s.w.home, t.w.home, p.caKey)
  {
    hide IsAuthority, IsBundle, IsServiceCert, ReadAuthority, CertSecret;
    BundleKind(p);
    CertKinds(p);
    CertificateKey(o, n, p, ca, task);
    if task.key !in s.w.home && task.key in t.w.home {
      MadeCertificate(o, n, p, hosts, ca, task, t.w.home[task.key]);
    }
  }

  lemma MadeCertificate(o: Oracle, n: nat, p: Plan, hosts: set<string>, ca: Authority, task: CertTask, obj: Obj)
    requires CertSecret(o, n, p, ca, task).Some? && Represents(CertSecret(o, n, p, ca, task).value, obj)
    requires p.nodeHost in hosts
    ensures IsServiceCert(obj, ca, task, p.owner.ns, hosts)
  {
    hide ServiceSans;
  }

  lemma CertificateKey(o: Oracle, n: nat, p: Plan, ca: Authority, task: CertTask)
    ensures CertSecret(o, n, p, ca, task).Some? ==> CertSecret(o, n, p, ca, task).value.key == task.key
  {
  }

  lemma TrustPartTrusted(o: Oracle, p: Plan, hosts: set<string>, s: Run)
    requires WellFormed(p) && InPlace(p, s) && !p.routes && s.halt == None
    requires Trusted(ChainOf(p), hosts, s.w.home) && p.nodeHost in hosts
    ensures Trusted(ChainOf(p), hosts, TrustPart(o, p, s).w.home)
  {
    hide LoadAuthority, CreateIfMissing, Provisioned, Proceeds, TrustPart, WellFormed, Trusted, CertSecret;
    hide ReadAuthority;
    var s0, authority, s1, s2, s3 := TrustSteps(o, p, s);
    AuthorityTrusted(o, p, hosts, s);
    if authority.Some? {
      BundleTrusted(p, hosts, s0, s1, authority.value);
      CertTrusted(o, s1.w.clock + 1, p, hosts, s1, s2, authority.value, p.appCert);
      CertTrusted(o, s2.w.clock + 1, p, hosts, s2, s3, authority.value, p.keycloakCert);
    }
  }

  /* Once the chain is complete the rest of the run cannot touch it. */
  lemma CompleteChainStays(p: Plan, s: Run, t: Run)
    requires WellFormed(p) && !p.routes && Proceeds(p, s, t)
    requires s.halt == None ==> p.trustKey in s.w.home && CertKeys(p) <= s.w.home.Keys
    ensures SameChain(ChainOf(p), s.w.home, t.w.home)
  {
    hide Explained, Summed, WellFormed;
    if s.halt == None {
      assert p.caKey in CertKeys(p) && p.appCert.key in CertKeys(p) && p.keycloakCert.key in CertKeys(p);
      SecretOrBundleStays(p, s, t, p.trustKey);
      SecretOrBundleStays(p, s, t, p.caKey);
      SecretOrBundleStays(p, s, t, p.appCert.key);
      SecretOrBundleStays(p, s, t, p.keycloakCert.key);
    }
  }

  /** A run keeps the chain of trust whole: at every point at which it can be
      stopped, the CA bundle exists only with the CA secret and holds its
      certificate, and the service certificates are signed with its key. */
  lemma RunKeepsTrust(o: Oracle, p: Plan, hosts: set<string>, s: Run)
    requires WellFormed(p) && InPlace(p, s) && !p.routes && s.halt == None
    requires Trusted(ChainOf(p), hosts, s.w.home) && p.nodeHost in hosts
    ensures Trusted(ChainOf(p), hosts, Execute(o, p, s).w.home)
  {
    hide Proceeds, WellFormed, Execute, StagesOf, Staged, AllHoused, Trusted, TrustPart, Prologue;
    var g := StagesOf(o, p, s);
    StagesHold(o, p, s);
    FirstStage(o, p, s);
    StageSteps(o, p, s);
    PlaceAtFirst(p, g);
    if g.s0.halt == None {
      TrustPartTrusted(o, p, hosts, g.s0);
    } else {
      ChainStays(ChainOf(p), hosts, s.w.home, g.s1.w.home) by { HaltedTrust(o, p, g.s0); }
    }
    TrustPartProceeds(o, p, g.s0);
    RestProceeds(p, g);
    CompleteChainStays(p, g.s1, g.end);
    ChainStays(ChainOf(p), hosts, g.s1.w.home, g.end.w.home);
  }

  lemma PlaceAtFirst(p: Plan, g: Stages)
    requires AllHoused(p, g)
    ensures InPlace(p, g.s0)
  {
    hide AllThere;
  }

  lemma HaltedTrust(o: Oracle, p: Plan, s: Run)
    ensures s.halt.Some? ==> TrustPart(o, p, s) == s
  {
  }

  lemma RestProceeds(p: Plan, g: Stages)
    requires Staged(p, g)
    ensures Proceeds(p, g.s1, g.end)
  {
    hide Proceeds;
    ProceedsTransitive(p, g.s1, g.s2, g.s3);
    ProceedsTransitive(p, g.s1, g.s3, g.s4);
    ProceedsTransitive(p, g.s1, g.s4, g.s5);
    ProceedsTransitive(p, g.s1, g.s5, g.s6);
    ProceedsTransitive(p, g.s1, g.s6, g.s7);
    ProceedsTransitive(p, g.s1, g.s7, g.s8);
    ProceedsTransitive(p, g.s1, g.s8, g.s9);
    ProceedsTransitive(p, g.s1, g.s9, g.end);
  }

  /** createServiceCert is never reached without a CA: "CA is nil" cannot be returned. */
  lemma CaIsNeverNil(o: Oracle, p: Plan, s: Run)
    requires WellFormed(p) && InPlace(p, s)
    ensures CreateCA(o, p, s).0.halt == None ==> CreateCA(o, p, s).1.Some?
  {
    hide Proceeds, CreateCA, WellFormed;
    CreateCAProceeds(o, p, s);
  }

  // Whole histories

  /* The world belongs to this resource, and its node host is one of these. */
  predicate OfResource(w: World, ns: string, name: string, hosts: set<string>) {
    w.ns == ns && (w.cr.Some? ==> w.cr.value.ns == ns && w.cr.value.name == name && w.cr.value.spec.nodeHost in hosts)
  }

  lemma PlanChain(env: Env, cr: Horreum)
    ensures ChainOf(PlanOf(env, cr)) == ChainFor(cr.ns, cr.name)
    ensures PlanOf(env, cr).routes == env.routes && PlanOf(env, cr).nodeHost == cr.spec.nodeHost
  {
    hide PostgresPod, PostgresConfigMap, PostgresService, KeycloakPod, KeycloakService, KeycloakRoute;
    hide AppPod, AppService, AppRoute, UploadConfig;
    hide DbAdminSecret, AppUserSecret, KeycloakAdminSecret, KeycloakDbSecret, HorreumAdminSecret;
  }

  lemma ReconcileKeepsTrust(o: Oracle, env: Env, ns: string, name: string, hosts: set<string>, w: World)
    requires !env.routes && OfResource(w, ns, name, hosts) && Trusted(ChainFor(ns, name), hosts, w.home)
    ensures Trusted(ChainFor(ns, name), hosts, Reconcile(o, env, w).w.home)
  {
    hide Execute, PlanOf, Trusted, ChainFor;
    if w.cr.Some? {
      var p := PlanOf(env, w.cr.value);
      var s := Run(Tick(o, w), w.cr.value.status, [], None);
      Names.PlanOwner(env, w.cr.value);
      Names.PlanIsWellFormed(env, w.cr.value);
      PlanChain(env, w.cr.value);
      RunKeepsTrust(o, p, hosts, s);
    }
  }

  /** Through every history of edits, faults and crashes that starts without any
      of its objects, or with a whole chain, the chain of trust stays whole, as
      long as nobody else touches its four objects. */
  lemma {:induction false} TrustIsForever(
    os: seq<Oracle>, env: Env, ns: string, name: string, hosts: set<string>, ws: seq<World>)
    requires !env.routes && |ws| == |os| + 1 && (forall i | 0 <= i < |ws| :: OfResource(ws[i], ns, name, hosts))
    requires Trusted(ChainFor(ns, name), hosts, ws[0].home)
    requires forall i | 0 <= i < |os| ::
      SameChain(ChainFor(ns, name), Reconcile(os[i], env, ws[i]).w.home, ws[i + 1].home)
    ensures Trusted(ChainFor(ns, name), hosts, ws[|os|].home)
  {
    hide Reconcile, Trusted, ChainFor, OfResource, SameChain;
    if |os| > 0 {
      var c := ChainFor(ns, name);
      var i := |os| - 1;
      forall j | 0 <= j < i
        ensures SameChain(c, Reconcile(os[..i][j], env, ws[..i + 1][j]).w.home, ws[..i + 1][j + 1].home)
      {
        assert SameChain(c, Reconcile(os[j], env, ws[j]).w.home, ws[j + 1].home);
      }
      TrustIsForever(os[..i], env, ns, name, hosts, ws[..i + 1]);
      ReconcileKeepsTrust(os[i], env, ns, name, hosts, ws[i]);
      ChainStays(c, hosts, Reconcile(os[i], env, ws[i]).w.home, ws[i + 1].home);
    }
  }

  /** To start without any of the four objects is to start with a whole chain. */
  lemma NothingIsTrusted(c: Chain, hosts: set<string>, h: map<Key, Obj>)
    requires ChainKeys(c) !! h.Keys
    ensures Trusted(c, hosts, h)
  {
    hide IsAuthority, IsBundle, IsServiceCert;
    assert c.ca in ChainKeys(c) && c.bundle in ChainKeys(c);
    assert c.app.key in ChainKeys(c) && c.keycloak.key in ChainKeys(c);
  }

  // What the chain is for

  /* A certificate that a client accepts who trusts a bundle (sections 4.1.2.2 and 6.1 of RFC 5280). */
  predicate Accepts(root: Certificate, cert: Certificate) {
    root.isCA && root.signer == root.publicKey && cert.signer == root.publicKey && cert.serial != root.serial
  }

  function BundledCert(obj: Obj): Option<Certificate> {
    if obj.ConfigMap? && CABUNDLE in obj.binary && obj.binary[CABUNDLE].CertPem? then Some(obj.binary[CABUNDLE].cert)
    else None
  }

  function ServedCert(obj: Obj): Option<Certificate> {
    if obj.Secret? && TLSCERT in obj.data && obj.data[TLSCERT].CertPem? then Some(obj.data[TLSCERT].cert) else None
  }

  /** A whole chain does its work: with service-ca.crt as the root, a client
      accepts both service certificates, and all serial numbers differ. */
  lemma ClientsAccept(ns: string, name: string, hosts: set<string>, h: map<Key, Obj>)
    requires Trusted(ChainFor(ns, name), hosts, h)
    ensures var c := ChainFor(ns, name);
      c.bundle in h && c.app.key in h && c.keycloak.key in h ==>
        && BundledCert(h[c.bundle]).Some? && ServedCert(h[c.app.key]).Some? && ServedCert(h[c.keycloak.key]).Some?
        && Accepts(BundledCert(h[c.bundle]).value, ServedCert(h[c.app.key]).value)
        && Accepts(BundledCert(h[c.bundle]).value, ServedCert(h[c.keycloak.key]).value)
        && ServedCert(h[c.app.key]).value.serial != ServedCert(h[c.keycloak.key]).value.serial
  {
    hide ServiceSans, ReadAuthority;
  }

  // A second resource in the namespace

  /* The keys that can be made are not that of this certificate. */
  ghost predicate MakesOtherKeys(o: Oracle, cert: Option<Certificate>) {
    cert.Some? ==> forall n: nat | o.rsa(n).Some? :: o.rsa(n).value.public != cert.value.publicKey
  }

  /* What the bundle, if there is one, has to be for the resource to have its own. */
  predicate BundleFits(p: Plan, h: map<Key, Obj>) {
    || p.trustKey !in h
    || (p.caKey in h && ReadAuthority(h[p.caKey]).Some? &&
        BundledCert(h[p.trustKey]) == Some(ReadAuthority(h[p.caKey]).value.cert))
  }

  lemma MadeKey(o: Oracle, p: Plan, s: Run)
    requires InPlace(p, s) && p.caKey.ns == p.owner.ns && p.caKey !in s.w.home && s.halt == None
    ensures var (t, authority) := LoadAuthority(o, p, s);
      authority.Some? ==> o.rsa(s.w.clock + 1) == Some(authority.value.key) &&
                          authority.value.cert.publicKey == authority.value.key.public
  {
    hide Live, ReadAuthority, Quit;
  }

  /** service-ca.crt is shared by all resources of a namespace, and only the
      first to come fills it.  After a run that got through the trust part the
      bundle holds the certificate of the resource's own CA if and only if there
      was no bundle before, or a CA secret with the certificate in it. */
  lemma BundleIsOwnIff(o: Oracle, p: Plan, s: Run)
    requires WellFormed(p) && InPlace(p, s) && !p.routes && s.halt == None
    requires p.trustKey in s.w.home ==> MakesOtherKeys(o, BundledCert(s.w.home[p.trustKey]))
    requires TrustPart(o, p, s).halt == None
    ensures var h, h' := s.w.home, TrustPart(o, p, s).w.home;
      p.trustKey in h' && p.caKey in h' && ReadAuthority(h'[p.caKey]).Some? &&
      (BundledCert(h'[p.trustKey]) == Some(ReadAuthority(h'[p.caKey]).value.cert) <==> BundleFits(p, h))
  {
    hide LoadAuthority, CreateIfMissing, Proceeds, TrustPart, WellFormed, CertSecret, CaCertificate, Provisioned;
    var s0, authority, s1, s2, s3 := TrustSteps(o, p, s);
    LoadAuthorityShape(o, p, s);
    CertKinds(p);
    BundleKind(p);
    if p.caKey !in s.w.home { MadeKey(o, p, s); }
    HaltedForGood(p, s0, s1);
    HaltedForGood(p, s1, s2);
    HaltedForGood(p, s2, s3);
    BundleMade(p, s0, s1, authority.value);
    ProceedsTransitive(p, s1, s2, s3);
    ProceedsTransitive(p, s0, s1, s3);
    SecretOrBundleStays(p, s1, s3, p.trustKey);
    SecretOrBundleStays(p, s0, s3, p.caKey);
    TrustPartProceeds(o, p, s);
  }

  lemma BundleMade(p: Plan, s: Run, t: Run, ca: Authority)
    requires Provisioned(s, t, p.trustKey, Some(TrustBundle(p, ca))) && t.halt == None
    ensures p.trustKey in t.w.home
    ensures if p.trustKey in s.w.home then t.w.home[p.trustKey] == s.w.home[p.trustKey]
            else BundledCert(t.w.home[p.trustKey]) == Some(ca.cert)
  {
  }

  /* An API server without faults that makes a new key at every call. */
  const STEADY := Oracle(
    (n: nat) => Ok, (n: nat) => map[], (n: nat) => Unset, (n: nat) => n + 1, (n: nat) => "host",
    (n: nat) => "password", (n: nat) => "secret",
    (n: nat) => Some(PrivateKey(PublicKey(n + 1))), (n: nat) => true, (n: nat) => n)

  lemma SteadyAuthority(p: Plan, s: Run)
    requires InPlace(p, s) && s.halt == None && p.caKey.ns == p.owner.ns && p.caKey !in s.w.home
    ensures var (t, authority) := LoadAuthority(STEADY, p, s);
      && t.halt == None && t.st == s.st
      && authority == Some(Authority(CaCertificate(authority.value.key), authority.value.key))
      && authority.value.key.public != PublicKey(0) && t.w.ns == s.w.ns
      && p.caKey in t.w.home && t.w.home == s.w.home[p.caKey := t.w.home[p.caKey]]
  {
    hide CaCertificate;
  }

  lemma SteadyCreation(p: Plan, s: Run, k: Key, made: Option<Manifest>)
    requires InPlace(p, s) && s.halt == None && k.ns == p.owner.ns
    requires made.Some? ==> made.value.key == k && made.value.SecretM?
    requires k !in s.w.home ==> made.Some?
    ensures var t := CreateIfMissing(STEADY, p, s, k, made);
      && t.halt == None && t.st == s.st && t.w.ns == s.w.ns && k in t.w.home
      && t.w.home == if k in s.w.home then s.w.home else s.w.home[k := Secret(p.owner, made.value.data)]
  {
  }

  lemma SteadyCertificate(n: nat, p: Plan, ca: Authority, task: CertTask)
    ensures var made := CertSecret(STEADY, n, p, ca, task);
      && made.Some? && made.value.SecretM? && made.value.key == task.key
      && TLSCERT in made.value.data && made.value.data[TLSCERT].CertPem?
      && made.value.data[TLSCERT].cert.signer == ca.key.public
  {
    hide ServiceSans;
  }

  /** The case does happen: a resource that comes second, to a namespace whose
      bundle holds the certificate of another CA, completes its part of the
      chain without an error, and its certificate is not accepted. */
  lemma SecondResourceIsNotTrusted(p: Plan, s: Run, other: Certificate)
    requires WellFormed(p) && InPlace(p, s) && !p.routes && s.halt == None
    requires p.trustKey in s.w.home && BundledCert(s.w.home[p.trustKey]) == Some(other)
    requires other.publicKey == PublicKey(0)
    requires CertKeys(p) !! s.w.home.Keys
    ensures var t := TrustPart(STEADY, p, s);
      && t.halt == None && t.st == s.st && p.trustKey in t.w.home && p.appCert.key in t.w.home
      && BundledCert(t.w.home[p.trustKey]) == Some(other)
      && ServedCert(t.w.home[p.appCert.key]).Some?
      && !Accepts(other, ServedCert(t.w.home[p.appCert.key]).value)
  {
    hide WellFormed, LoadAuthority, CreateIfMissing, CertSecret, Proceeds, Provisioned, Footprint, CaCertificate;
    BundleKind(p);
    CertKinds(p);
    BundleIsHome(p);
    assert p.caKey in CertKeys(p) && p.appCert.key in CertKeys(p) && p.keycloakCert.key in CertKeys(p);
    var s0, authority, s1, s2, s3 := TrustSteps(STEADY, p, s);
    SteadyAuthority(p, s);
    SteadyBundle(p, s0, Some(TrustBundle(p, authority.value)));
    SteadyCertificate(s1.w.clock + 1, p, authority.value, p.appCert);
    SteadyCreation(p, s1, p.appCert.key, CertSecret(STEADY, s1.w.clock + 1, p, authority.value, p.appCert));
    SteadyCertificate(s2.w.clock + 1, p, authority.value, p.keycloakCert);
    SteadyCreation(p, s2, p.keycloakCert.key, CertSecret(STEADY, s2.w.clock + 1, p, authority.value, p.keycloakCert));
  }

  lemma BundleIsHome(p: Plan)
    requires WellFormed(p)
    ensures p.trustKey.ns == p.owner.ns
  {
  }

  lemma SteadyBundle(p: Plan, s: Run, made: Option<Manifest>)
    requires InPlace(p, s) && s.halt == None && p.trustKey.ns == p.owner.ns && p.trustKey in s.w.home
    ensures var t := CreateIfMissing(STEADY, p, s, p.trustKey, made);
      t.halt == None && t.st == s.st && t.w.ns == s.w.ns && t.w.home == s.w.home
  {
    hide Live;
  }
}
