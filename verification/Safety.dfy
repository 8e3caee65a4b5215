/**
  Safety of whole runs: every change is explained by the log and legal at the
  moment it is made, at every point at which a run can stop.
 */
module Safety {
  import opened Wrappers
  import opened Resources
  import opened HorreumApi
  import opened Matching
  import opened Worlds
  import opened Plans
  import opened Steps
  import opened Effects

  /* A run at home in the plan's namespace. */
  predicate InPlace(p: Plan, s: Run) {
    s.w.ns == p.owner.ns
  }

  lemma StaysInPlace(p: Plan, s: Run, t: Run)
    requires Proceeds(p, s, t) && InPlace(p, s)
    ensures InPlace(p, t)
  {
  }

  predicate AllThere(p: Plan, home: map<Key, Obj>) {
    Provided(p) <= home.Keys
  }

  lemma ExplainedPrefix(p: Plan, before: map<Key, Obj>, es: seq<Event>, after: map<Key, Obj>)
    requires es != [] && Explained(p, before, es, after)
    ensures var i := |es| - 1; Explained(p, before, es[..i], es[i].before)
  {
    hide Legal;
    var i := |es| - 1;
    forall j | 0 <= j < i ensures es[..i][..j] == es[..j] { }
  }

  /** What is not a pod, a service, a route or the postgres config map stays as
      it is once it is there: legal changes never touch it again. */
  lemma {:induction false} UndeletableStays(
    p: Plan, before: map<Key, Obj>, es: seq<Event>, after: map<Key, Obj>, k: Key)
    requires Explained(p, before, es, after) && k in before && !Deletable(p, k)
    ensures k in after && after[k] == before[k]
    decreases |es|
  {
    hide Represents, Grounded, Footprint, Deletable;
    if es != [] {
      var i := |es| - 1;
      ExplainedPrefix(p, before, es, after);
      UndeletableStays(p, before, es[..i], es[i].before, k);
      assert Legal(p, es[i]);
    }
  }

  /** Nothing outside the footprint of the resource is ever changed. */
  lemma {:induction false} OutsideStays(p: Plan, before: map<Key, Obj>, es: seq<Event>, after: map<Key, Obj>, k: Key)
    requires Explained(p, before, es, after) && k !in Footprint(p)
    ensures k in after <==> k in before
    ensures k in after ==> after[k] == before[k]
    decreases |es|
  {
    hide Represents, Grounded, Footprint, Deletable;
    if es != [] {
      var i := |es| - 1;
      ExplainedPrefix(p, before, es, after);
      OutsideStays(p, before, es[..i], es[i].before, k);
      assert Legal(p, es[i]);
    }
  }

  /** A route that has a URL after legal changes has it from before: they replace
      routes only by new ones, which have none yet. */
  lemma {:induction false} RouteIsOldOrBare(
    p: Plan, before: map<Key, Obj>, es: seq<Event>, after: map<Key, Obj>, k: Key)
    requires Explained(p, before, es, after) && k in after
    ensures RouteUrl(after[k]) == "" || (k in before && after[k] == before[k])
    decreases |es|
  {
    hide Grounded, Footprint, Deletable, Encode;
    if es != [] {
      var i := |es| - 1;
      ExplainedPrefix(p, before, es, after);
      assert Legal(p, es[i]);
      if k in es[i].before { RouteIsOldOrBare(p, before, es[..i], es[i].before, k); }
    }
  }

  lemma ProvidedStays(p: Plan, s: Run, t: Run)
    requires WellFormed(p) && Proceeds(p, s, t) && AllThere(p, s.w.home)
    ensures AllThere(p, t.w.home)
  {
    hide Explained, Summed;
    forall k | k in Provided(p) ensures k in t.w.home {
      UndeletableStays(p, s.w.home, t.w.log[|s.w.log|..], t.w.home, k);
    }
  }

  // Part by part

  lemma FootprintHas(p: Plan)
    ensures p.trustKey in Footprint(p) && CertKeys(p) <= Footprint(p) && SecretKeys(p) <= Footprint(p)
    ensures p.postgresMap.key in Footprint(p) && p.postgresPod.key in Footprint(p)
    ensures p.postgresService.key in Footprint(p) && p.keycloakService.key in Footprint(p)
    ensures p.keycloakRoute.key in Footprint(p) && p.keycloakPodKey in Footprint(p)
    ensures p.appService.key in Footprint(p) && p.appRoute.key in Footprint(p)
    ensures p.appPodKey in Footprint(p) && p.upload.key in Footprint(p)
  {
  }

  lemma FootprintIsLocal(p: Plan, k: Key)
    requires WellFormed(p) && k in Footprint(p)
    ensures k.ns == p.owner.ns
  {
  }

  lemma OwnKey(p: Plan, s: Run, k: Key)
    requires WellFormed(p) && InPlace(p, s) && k in Footprint(p)
    ensures Local(p, s, k)
  {
    FootprintIsLocal(p, k);
  }

  lemma PodGrounded(p: Plan, s: Run, want: Manifest)
    requires WellFormed(p) && InPlace(p, s) && AllThere(p, s.w.home)
    requires IsPodOf(p, want) && (want.key == p.postgresPod.key ==> p.postgresMap.key in s.w.home)
    ensures Proper(p, s, want, SamePod)
  {
    hide PodRefs, Footprint, IsPodOf, ProvidedFor, WellFormed;
    PodIsOwn(p, want);
    FootprintIsLocal(p, want.key);
    forall k | k in ProvidedFor(p, want.key) ensures k in s.w.home - {want.key} {
      ProvidedKind(p, want.key, k);
    }
  }

  lemma ProvidedKind(p: Plan, pod: Key, k: Key)
    requires WellFormed(p) && k in ProvidedFor(p, pod)
    ensures k.kind == SecretKind || k.kind == ConfigMapKind
    ensures k in Provided(p) || (pod == p.postgresPod.key && k == p.postgresMap.key)
  {
    hide SecretKeys, CertKeys, PodsFormed, ServicesFormed, RoutesFormed;
  }

  lemma PodIsOwn(p: Plan, want: Manifest)
    requires WellFormed(p) && IsPodOf(p, want)
    ensures want.PodM? && want.key in Footprint(p) && want.key.kind == PodKind
  {
    hide SecretsFormed, MapsFormed, ServicesFormed, RoutesFormed, Footprint;
    FootprintHas(p);
  }

  lemma LoadAuthorityProceeds(o: Oracle, p: Plan, s: Run)
    requires WellFormed(p) && InPlace(p, s)
    ensures var (t, authority) := LoadAuthority(o, p, s);
      && Proceeds(p, s, t)
      && (t.halt == None <==> authority.Some?)
      && (t.halt == None ==> p.caKey in t.w.home)
  {
    hide Proceeds, Represents, Footprint, Live, CaCertificate, ReadAuthority, Quit;
    if s.halt.Some? {
      ProceedsReflexive(p, s);
      return;
    }
    FootprintHas(p);
    OwnKey(p, s, p.caKey);
    var (t, authority) := LoadAuthority(o, p, s);
    var (w, fetch) := Get(o, s.w, p.caKey);
    var u := s.(w := w);
    IdleProceeds(p, s, u);
    if fetch != NotFound || o.rsa(w.clock) == None || !o.signs(w.clock) {
      IdleProceeds(p, s, t);
    } else {
      var want := CaSecret(p, o.rsa(w.clock).value);
      CreateProceeds(o, p, u, want);
      LiveRepresents(o, u.w.clock, p.owner, want);
      var (w', ack) := Create(o, u.w, p.owner, want);
      var v := u.(w := w');
      ProceedsTransitive(p, s, u, v);
      match ack
      case Gone => IdleProceeds(p, v, t); ProceedsTransitive(p, s, v, t);
      case Denied => QuitProceeds(o, p, v, Error, CannotCreateCaSecret, Failed); ProceedsTransitive(p, s, v, t);
      case Done =>
    }
  }

  /* The CA secret came into being with a key of this run. */
  predicate NewAuthority(p: Plan, obj: Obj, authority: Authority) {
    obj.Secret? && obj.data == map[TLSKEY := KeyPem(authority.key), TLSCERT := CertPem(authority.cert)]
    && authority.cert == CaCertificate(authority.key)
  }

  lemma CertKinds(p: Plan)
    requires WellFormed(p)
    ensures IsKind(p.caKey, SecretKind, p.owner.ns)
    ensures IsKind(p.appCert.key, SecretKind, p.owner.ns) && IsKind(p.keycloakCert.key, SecretKind, p.owner.ns)
  {
    assert p.caKey in CertKeys(p) && p.appCert.key in CertKeys(p) && p.keycloakCert.key in CertKeys(p);
  }

  predicate FreshAuthority(p: Plan, s: Run, t: Run) {
    && p.caKey !in s.w.home && p.caKey in t.w.home && t.w.home == s.w.home[p.caKey := t.w.home[p.caKey]]
    && |t.w.log| == |s.w.log| + 1
  }

  lemma LoadAuthorityShape(o: Oracle, p: Plan, s: Run)
    requires WellFormed(p) && InPlace(p, s)
    ensures var (t, authority) := LoadAuthority(o, p, s);
      && t.w.ns == s.w.ns
      && (Kept(s, t) || (FreshAuthority(p, s, t) && exists a :: NewAuthority(p, t.w.home[p.caKey], a)))
      && (t.halt == None <==> authority.Some?)
      && (t.halt == None ==> p.caKey in t.w.home && t.st == s.st && t.notes == s.notes)
      && (t.halt == None && p.caKey in s.w.home ==>
            Kept(s, t) && ReadAuthority(s.w.home[p.caKey]) == authority)
      && (t.halt == None && p.caKey !in s.w.home ==>
            FreshAuthority(p, s, t) && NewAuthority(p, t.w.home[p.caKey], authority.value))
  {
    hide ReadAuthority, CaCertificate, Quit, WellFormed;
    if s.halt.Some? { return; }
    CertKinds(p);
    var (w, fetch) := Get(o, s.w, p.caKey);
    if fetch == NotFound && o.rsa(w.clock).Some? && o.signs(w.clock) {
      var key := o.rsa(w.clock).value;
      var (w', ack) := Create(o, w, p.owner, CaSecret(p, key));
      var u := s.(w := w');
      var authority := Authority(CaCertificate(key), key);
      assert w'.log != w.log ==> FreshAuthority(p, s, u) && NewAuthority(p, w'.home[p.caKey], authority);
      QuitKeeps(o, u, Error, CannotCreateCaSecret, Failed);
    }
  }

  lemma QuitKeeps(o: Oracle, s: Run, phase: Phase, reason: Reason, verdict: Verdict)
    ensures var t := Quit(o, s, phase, reason, verdict); Kept(s, t) && t.w.ns == s.w.ns && t.halt.Some?
  {
  }

  lemma CertProceeds(o: Oracle, p: Plan, s: Run, authority: Option<Authority>, task: CertTask)
    requires WellFormed(p) && InPlace(p, s) && task.key in Footprint(p)
    requires s.halt == None ==> authority.Some?
    ensures var t := CreateServiceCert(o, p, s, authority, task);
      && Proceeds(p, s, t)
      && (t.halt == None ==> task.key in t.w.home)
  {
    hide Proceeds, Represents, Footprint, CreateIfMissing, ServiceCertificate;
    OwnKey(p, s, task.key);
    if s.halt.Some? {
      ProceedsReflexive(p, s);
    } else {
      CreateIfMissingProvisions(o, p, s, task.key, CertSecret(o, s.w.clock + 1, p, authority.value, task));
    }
  }

  lemma CreateCAProceeds(o: Oracle, p: Plan, s: Run)
    requires WellFormed(p) && InPlace(p, s)
    ensures var (t, authority) := CreateCA(o, p, s);
      && Proceeds(p, s, t)
      && (t.halt == None ==> authority.Some? && p.caKey in t.w.home && p.trustKey in t.w.home)
  {
    hide Proceeds, Represents, Footprint, LoadAuthority, CreateIfMissing;
    LoadAuthorityProceeds(o, p, s);
    FootprintHas(p);
    var (t, authority) := LoadAuthority(o, p, s);
    StaysInPlace(p, s, t);
    if authority.Some? {
      OwnKey(p, t, p.trustKey);
      var made := Some(TrustBundle(p, authority.value));
      CreateIfMissingProvisions(o, p, t, p.trustKey, made);
      ProceedsTransitive(p, s, t, CreateIfMissing(o, p, t, p.trustKey, made));
    }
  }

  lemma PlainProper(p: Plan, s: Run, want: Manifest, mode: Mode)
    requires WellFormed(p) && InPlace(p, s) && want.key in Footprint(p) && !want.PodM? && Fits(mode, want)
    requires mode.Exists? || mode.HasKeys? || Deletable(p, want.key)
    ensures Proper(p, s, want, mode)
  {
    hide Footprint, WellFormed, Fits, Deletable;
    OwnKey(p, s, want.key);
  }

  lemma PlainProceeds(o: Oracle, p: Plan, s: Run, want: Manifest, mode: Mode)
    requires WellFormed(p) && InPlace(p, s) && want.key in Footprint(p) && !want.PodM? && Fits(mode, want)
    requires mode.Exists? || mode.HasKeys? || Deletable(p, want.key)
    ensures var (t, out) := EnsureSame(o, p, s, want, mode);
      Proceeds(p, s, t) && Settled(s, t, want, mode) && InPlace(p, t)
  {
    hide Footprint, WellFormed, Fits, Deletable, Proceeds, EnsureSame, Settled, Proper;
    PlainProper(p, s, want, mode);
    EnsureSameSettles(o, p, s, want, mode);
    StaysInPlace(p, s, EnsureSame(o, p, s, want, mode).0);
  }

  lemma PodProceeds(o: Oracle, p: Plan, s: Run, want: Manifest)
    requires WellFormed(p) && InPlace(p, s) && (s.halt == None ==> AllThere(p, s.w.home))
    requires IsPodOf(p, want)
    requires s.halt == None && want.key == p.postgresPod.key ==> p.postgresMap.key in s.w.home
    ensures var (t, out) := EnsureSame(o, p, s, want, SamePod);
      Proceeds(p, s, t) && Settled(s, t, want, SamePod) && InPlace(p, t)
      && (t.halt == None ==> AllThere(p, t.w.home))
  {
    hide Footprint, Proceeds, EnsureSame, Settled, Proper, AllThere, WellFormed;
    if s.halt.Some? {
      HaltedStays(o, p, s, want, SamePod);
      return;
    }
    PodGrounded(p, s, want);
    EnsureSameSettles(o, p, s, want, SamePod);
    var t := EnsureSame(o, p, s, want, SamePod).0;
    StaysInPlace(p, s, t);
    ProvidedStays(p, s, t);
  }

  lemma HaltedStays(o: Oracle, p: Plan, s: Run, want: Manifest, mode: Mode)
    requires s.halt.Some?
    ensures var (t, out) := EnsureSame(o, p, s, want, mode);
      t == s && Proceeds(p, s, t) && Settled(s, t, want, mode)
  {
    hide Proceeds;
    ProceedsReflexive(p, s);
  }

  lemma TrustPartProceeds(o: Oracle, p: Plan, s: Run)
    requires WellFormed(p) && InPlace(p, s)
    ensures var t := TrustPart(o, p, s);
      && Proceeds(p, s, t) && InPlace(p, t)
      && (t.halt == None ==> p.trustKey in t.w.home && (!p.routes ==> CertKeys(p) <= t.w.home.Keys))
  {
    hide Proceeds, EnsureSame, CreateCA, CreateServiceCert, Represents, Footprint, InPlace, WellFormed;
    FootprintHas(p);
    if s.halt.Some? {
      ProceedsReflexive(p, s);
    } else if p.routes {
      PlainProceeds(o, p, s, TrustManifest(p), Exists);
    } else {
      CertificatesProceed(o, p, s);
    }
  }

  lemma CertificatesProceed(o: Oracle, p: Plan, s: Run)
    requires WellFormed(p) && InPlace(p, s) && s.halt == None && !p.routes
    ensures var t := TrustPart(o, p, s);
      && Proceeds(p, s, t) && InPlace(p, t)
      && (t.halt == None ==> p.trustKey in t.w.home && CertKeys(p) <= t.w.home.Keys)
  {
    hide Proceeds, CreateCA, CreateServiceCert, Represents, Footprint, InPlace, WellFormed;
    FootprintHas(p);
    var (s1, authority) := CreateCA(o, p, s);
    var s2 := CreateServiceCert(o, p, s1, authority, p.appCert);
    var s3 := CreateServiceCert(o, p, s2, authority, p.keycloakCert);
    CreateCAProceeds(o, p, s);
    StaysInPlace(p, s, s1);
    CertProceeds(o, p, s1, authority, p.appCert);
    StaysInPlace(p, s1, s2);
    HaltedForGood(p, s1, s2);
    CertProceeds(o, p, s2, authority, p.keycloakCert);
    StaysInPlace(p, s2, s3);
    HaltedForGood(p, s2, s3);
    ProceedsTransitive(p, s, s1, s2);
    ProceedsTransitive(p, s, s2, s3);
    if s3.halt == None {
      SecretOrBundleStays(p, s1, s2, p.caKey);
      SecretOrBundleStays(p, s2, s3, p.caKey);
      SecretOrBundleStays(p, s1, s2, p.trustKey);
      SecretOrBundleStays(p, s2, s3, p.trustKey);
      SecretOrBundleStays(p, s2, s3, p.appCert.key);
    }
  }

  lemma HaltedForGood(p: Plan, s: Run, t: Run)
    requires Proceeds(p, s, t)
    ensures t.halt == None ==> s.halt == None
  {
  }

  lemma SecretOrBundleStays(p: Plan, s: Run, t: Run, k: Key)
    requires WellFormed(p) && Proceeds(p, s, t) && k in s.w.home
    requires (k in CertKeys(p) || k in SecretKeys(p) || k == p.trustKey)
    ensures k in t.w.home && t.w.home[k] == s.w.home[k]
  {
    hide Explained, Summed, Deletable;
    SecretIsUndeletable(p, k);
    UndeletableStays(p, s.w.home, t.w.log[|s.w.log|..], t.w.home, k);
  }

  lemma SecretIsUndeletable(p: Plan, k: Key)
    requires WellFormed(p) && (k in CertKeys(p) || k in SecretKeys(p) || k == p.trustKey)
    ensures !Deletable(p, k)
  {
    hide SecretKeys, CertKeys, PodsFormed, ServicesFormed, RoutesFormed;
  }

  lemma SecretStepProceeds(o: Oracle, p: Plan, s: Run, task: SecretTask)
    requires WellFormed(p) && InPlace(p, s) && task.key in SecretKeys(p)
    ensures var t := SecretStep(o, p, s, task);
      && Proceeds(p, s, t) && InPlace(p, t)
      && (t.halt == None ==> task.key in t.w.home && s.halt == None)
  {
    hide Proceeds, EnsureSame, Represents, Footprint, InPlace, WellFormed, SecretKeys;
    FootprintHas(p);
    PlainProceeds(o, p, s, SecretManifest(o, s.w.clock, task), HasKeys(NeededKeys(task)));
  }

  lemma SecretsPartProceeds(o: Oracle, p: Plan, s: Run)
    requires WellFormed(p) && InPlace(p, s)
    requires s.halt == None ==> p.trustKey in s.w.home && (!p.routes ==> CertKeys(p) <= s.w.home.Keys)
    ensures var t := SecretsPart(o, p, s);
      && Proceeds(p, s, t) && InPlace(p, t)
      && (t.halt == None ==> AllThere(p, t.w.home))
  {
    hide Proceeds, SecretStep, Footprint, InPlace, WellFormed;
    var s1 := SecretStep(o, p, s, p.dbAdmin);
    var s2 := SecretStep(o, p, s1, p.appUser);
    var s3 := SecretStep(o, p, s2, p.keycloakAdmin);
    var s4 := SecretStep(o, p, s3, p.keycloakDb);
    var s5 := SecretStep(o, p, s4, p.admin);
    SecretStepProceeds(o, p, s, p.dbAdmin);
    SecretStepProceeds(o, p, s1, p.appUser);
    SecretStepProceeds(o, p, s2, p.keycloakAdmin);
    SecretStepProceeds(o, p, s3, p.keycloakDb);
    SecretStepProceeds(o, p, s4, p.admin);
    ProceedsTransitive(p, s3, s4, s5);
    ProceedsTransitive(p, s2, s3, s5);
    ProceedsTransitive(p, s1, s2, s5);
    ProceedsTransitive(p, s, s1, s5);
    if s5.halt == None {
      forall k | k in Provided(p) ensures k in s5.w.home {
        if k == p.dbAdmin.key { SecretOrBundleStays(p, s1, s5, k); }
        else if k == p.appUser.key { SecretOrBundleStays(p, s2, s5, k); }
        else if k == p.keycloakAdmin.key { SecretOrBundleStays(p, s3, s5, k); }
        else if k == p.keycloakDb.key { SecretOrBundleStays(p, s4, s5, k); }
        else if k != p.admin.key { SecretOrBundleStays(p, s, s5, k); }
      }
    }
  }

  lemma DeletedProceeds(o: Oracle, p: Plan, s: Run, k: Key)
    requires WellFormed(p) && InPlace(p, s) && k in Footprint(p) && Deletable(p, k)
    requires s.halt == None ==> AllThere(p, s.w.home)
    ensures var t := EnsureDeleted(o, s, k);
      && Proceeds(p, s, t) && Cleared(s, t, k) && InPlace(p, t)
      && (t.halt == None ==> AllThere(p, t.w.home))
  {
    hide Proceeds, Cleared, EnsureDeleted, Footprint, WellFormed, Deletable, AllThere;
    OwnKey(p, s, k);
    EnsureDeletedClears(o, p, s, k);
    var t := EnsureDeleted(o, s, k);
    StaysInPlace(p, s, t);
    HaltedForGood(p, s, t);
    if t.halt == None { ProvidedStays(p, s, t); }
  }

  lemma ComparedProceeds(o: Oracle, p: Plan, s: Run, want: Manifest, mode: Mode)
    requires WellFormed(p) && InPlace(p, s) && want.key in Footprint(p) && !want.PodM? && Fits(mode, want)
    requires mode.Exists? || mode.HasKeys? || Deletable(p, want.key)
    requires s.halt == None ==> AllThere(p, s.w.home)
    ensures var (t, out) := EnsureSame(o, p, s, want, mode);
      && Proceeds(p, s, t) && Settled(s, t, want, mode) && InPlace(p, t)
      && (t.halt == None ==> AllThere(p, t.w.home))
  {
    hide Proceeds, Settled, EnsureSame, Footprint, WellFormed, Deletable, Fits, AllThere, InPlace;
    PlainProceeds(o, p, s, want, mode);
    var t := EnsureSame(o, p, s, want, mode).0;
    HaltedForGood(p, s, t);
    if t.halt == None { ProvidedStays(p, s, t); }
  }

  lemma PostgresPartProceeds(o: Oracle, p: Plan, s: Run)
    requires WellFormed(p) && InPlace(p, s) && (s.halt == None ==> AllThere(p, s.w.home))
    ensures var t := PostgresPart(o, p, s);
      Proceeds(p, s, t) && InPlace(p, t) && (t.halt == None ==> AllThere(p, t.w.home))
  {
    hide Proceeds, EnsureSame, EnsureDeleted, Footprint, Represents, AllThere, InPlace;
    FootprintHas(p);
    if p.postgres {
      var s1 := EnsureSame(o, p, s, p.postgresMap, SameData).0;
      var s2 := EnsureSame(o, p, s1, p.postgresPod, SamePod).0;
      var s3 := EnsureSame(o, p, s2, p.postgresService, SameService).0;
      ComparedProceeds(o, p, s, p.postgresMap, SameData);
      PodProceeds(o, p, s1, p.postgresPod);
      ComparedProceeds(o, p, s2, p.postgresService, SameService);
      ProceedsTransitive(p, s, s1, s2);
      ProceedsTransitive(p, s, s2, s3);
    } else {
      var s1 := EnsureDeleted(o, s, p.postgresPod.key);
      DeletedProceeds(o, p, s, p.postgresPod.key);
      DeletedProceeds(o, p, s1, p.postgresService.key);
      ProceedsTransitive(p, s, s1, EnsureDeleted(o, s1, p.postgresService.key));
    }
  }

  /* A built route is the one asked for, and building it changes nothing. */
  predicate IsRouteOf(task: RouteTask, route: Option<Manifest>) {
    route.Some? ==> route.value.RouteM? && route.value.key == task.key
  }

  lemma BuildRouteProceeds(o: Oracle, p: Plan, s: Run, task: RouteTask)
    requires InPlace(p, s)
    ensures var (t, route) := BuildRoute(o, p, s, task);
      && Proceeds(p, s, t) && InPlace(p, t) && Kept(s, t) && IsRouteOf(task, route)
      && (t.halt == None ==> s.halt == None && t.notes == s.notes && t.st == s.st)
  {
    hide Proceeds, ReadTlsSecret;
    var (t, route) := BuildRoute(o, p, s, task);
    if s.halt.Some? {
      ProceedsReflexive(p, s);
    } else if !task.supported || !p.routes || task.tlsMode.NoTls? || task.tlsMode.Passthrough? {
      IdleProceeds(p, s, t);
    } else {
      ReadTlsProceeds(o, p, s, task);
      var u := ReadTlsSecret(o, p, s, task).0;
      if t != u {
        IdleProceeds(p, u, t);
        ProceedsTransitive(p, s, u, t);
      }
    }
  }

  lemma ReadTlsProceeds(o: Oracle, p: Plan, s: Run, task: RouteTask)
    requires InPlace(p, s) && s.halt == None
    ensures var (t, data) := ReadTlsSecret(o, p, s, task);
      && Proceeds(p, s, t) && InPlace(p, t) && Kept(s, t)
      && (t.halt == None ==> t.notes == s.notes && t.st == s.st)
  {
    hide Proceeds, Quit;
    var (t, data) := ReadTlsSecret(o, p, s, task);
    var (w, fetch) := Get(o, s.w, TlsKey(p, task));
    var u := s.(w := w);
    IdleProceeds(p, s, u);
    if task.tlsSecret == "" || fetch.Died? || fetch.Found? {
      IdleProceeds(p, s, t);
    } else {
      QuitProceeds(o, p, u, Error, CannotFindSecret(task.reported), Failed);
      QuitKeepsUrls(o, u, Error, CannotFindSecret(task.reported), Failed);
      ProceedsTransitive(p, s, u, t);
    }
  }

  lemma AwaitProceeds(o: Oracle, p: Plan, s: Run, service: Manifest)
    requires InPlace(p, s) && s.halt == None
    ensures var t := AwaitUrl(o, s, service);
      Proceeds(p, s, t) && InPlace(p, t) && Kept(s, t) && t.halt.Some?
  {
    hide Proceeds, Quit;
    QuitProceeds(o, p, s, Pending, WaitingForUrl(service.key), Requeued);
    QuitKeepsUrls(o, s, Pending, WaitingForUrl(service.key), Requeued);
  }

  lemma NodePortProceeds(o: Oracle, p: Plan, s: Run, service: Manifest)
    requires InPlace(p, s) && s.halt == None
    ensures var (t, url) := NodePortUrl(o, p, s, service);
      && Proceeds(p, s, t) && InPlace(p, t) && Kept(s, t)
      && (t.halt == None ==> t.notes == s.notes && t.st == s.st)
  {
    hide Proceeds, Quit;
    var (t, url) := NodePortUrl(o, p, s, service);
    var u := s.(w := Get(o, s.w, service.key).0);
    IdleProceeds(p, s, u);
    if t.notes == s.notes && t.w == u.w && t.st == s.st {
      IdleProceeds(p, s, t);
    } else {
      QuitProceeds(o, p, u, Pending, WaitingForNodePort(service.key), Requeued);
      QuitKeepsUrls(o, u, Pending, WaitingForNodePort(service.key), Requeued);
      ProceedsTransitive(p, s, u, t);
    }
  }

  lemma LoadBalancerProceeds(o: Oracle, p: Plan, s: Run, service: Manifest)
    requires InPlace(p, s) && s.halt == None
    ensures var (t, url) := LoadBalancerUrl(o, s, service);
      Proceeds(p, s, t) && InPlace(p, t) && Kept(s, t) && t.halt.Some?
  {
    hide Proceeds, AwaitUrl;
    var (w, fetch) := Get(o, s.w, service.key);
    var u := s.(w := w);
    IdleProceeds(p, s, u);
    AwaitProceeds(o, p, u, service);
    match fetch
    case Found(_) => ProceedsTransitive(p, s, u, AwaitUrl(o, u, service));
    case _ => IdleProceeds(p, s, LoadBalancerUrl(o, s, service).0);
  }

  lemma RoutedProceeds(o: Oracle, p: Plan, s: Run, service: Manifest, task: RouteTask, route: Option<Manifest>)
    requires WellFormed(p) && InPlace(p, s) && s.halt == None && AllThere(p, s.w.home)
    requires IsRouteOf(task, route) && task.key in Footprint(p) && task.key.kind == RouteKind
    ensures var (t, url) := RoutedUrl(o, p, s, service, route);
      Proceeds(p, s, t) && InPlace(p, t) && (t.halt == None ==> AllThere(p, t.w.home))
  {
    hide Proceeds, AwaitUrl, EnsureSame, WellFormed, Footprint, AllThere, RouteUrl;
    var (t, url) := RoutedUrl(o, p, s, service, route);
    if route == None {
      IdleProceeds(p, s, t);
    } else {
      ComparedProceeds(o, p, s, route.value, SameRoute);
      var u := EnsureSame(o, p, s, route.value, SameRoute).0;
      if t != u {
        AwaitProceeds(o, p, u, service);
        ProceedsTransitive(p, s, u, t);
      }
    }
  }

  lemma FindUrlProceeds(
    o: Oracle, p: Plan, s: Run, service: Manifest, access: Access, task: RouteTask, route: Option<Manifest>)
    requires WellFormed(p) && InPlace(p, s) && (s.halt == None ==> AllThere(p, s.w.home))
    requires IsRouteOf(task, route) && task.key in Footprint(p) && task.key.kind == RouteKind
    requires OwnManifest(service, ServiceKind, p.owner.ns) && service.key in Footprint(p)
    ensures var (t, url) := FindUrl(o, p, s, service, access, route);
      Proceeds(p, s, t) && InPlace(p, t) && (t.halt == None ==> AllThere(p, t.w.home))
  {
    hide Proceeds, AwaitUrl, EnsureSame, WellFormed, Footprint, AllThere, NodePortUrl, LoadBalancerUrl, RoutedUrl;
    var u := EnsureSame(o, p, s, service, SameService).0;
    ComparedProceeds(o, p, s, service, SameService);
    if u.halt == None {
      var t := FindUrl(o, p, s, service, access, route).0;
      match access {
        case ByNodePort => NodePortProceeds(o, p, u, service);
        case ByLoadBalancer => LoadBalancerProceeds(o, p, u, service);
        case ByRoute => RoutedProceeds(o, p, u, service, task, route);
        case Nowhere => AwaitProceeds(o, p, u, service);
      }
      ProceedsTransitive(p, s, u, t);
    }
  }

  lemma KeycloakUrlProceeds(o: Oracle, p: Plan, s: Run, route: Option<Manifest>)
    requires WellFormed(p) && InPlace(p, s) && (s.halt == None ==> AllThere(p, s.w.home))
    requires IsRouteOf(p.keycloakRoute, route)
    ensures var (t, url) := KeycloakUrl(o, p, s, route);
      Proceeds(p, s, t) && InPlace(p, t) && (t.halt == None ==> AllThere(p, t.w.home))
  {
    hide Proceeds, FindUrl, Footprint, AllThere;
    ProceedsReflexive(p, s);
    FootprintHas(p);
    FindUrlProceeds(o, p, s, p.keycloakService, p.keycloakAccess, p.keycloakRoute, route);
  }

  lemma KeycloakPartProceeds(o: Oracle, p: Plan, s: Run, url: string)
    requires WellFormed(p) && InPlace(p, s) && (s.halt == None ==> AllThere(p, s.w.home))
    ensures var t := KeycloakPart(o, p, s, url);
      Proceeds(p, s, t) && InPlace(p, t) && (t.halt == None ==> AllThere(p, t.w.home))
  {
    hide Proceeds, EnsureSame, EnsureDeleted, Footprint, AllThere;
    ProceedsReflexive(p, s);
    if s.halt == None {
      FootprintHas(p);
      var t := s.(st := s.st.(keycloakUrl := url));
      var u := KeycloakPart(o, p, s, url);
      IdleProceeds(p, s, t);
      var pod := p.keycloakPod(url);
      if pod == None {
        IdleProceeds(p, s, u);
      } else if p.keycloakUri == "" {
        PodProceeds(o, p, t, pod.value);
        ProceedsTransitive(p, s, t, u);
      } else {
        KeycloakGone(o, p, t);
        ProceedsTransitive(p, s, t, u);
      }
    }
  }

  lemma KeycloakGone(o: Oracle, p: Plan, s: Run)
    requires WellFormed(p) && InPlace(p, s) && (s.halt == None ==> AllThere(p, s.w.home))
    ensures var s1 := EnsureDeleted(o, s, p.keycloakPodKey);
      var s2 := EnsureDeleted(o, s1, p.keycloakService.key);
      var t := if p.routes then EnsureDeleted(o, s2, p.keycloakRoute.key) else s2;
      Proceeds(p, s, t) && InPlace(p, t) && (t.halt == None ==> AllThere(p, t.w.home))
  {
    hide Proceeds, EnsureDeleted, Footprint, AllThere, InPlace;
    FootprintHas(p);
    var s1 := EnsureDeleted(o, s, p.keycloakPodKey);
    var s2 := EnsureDeleted(o, s1, p.keycloakService.key);
    DeletedProceeds(o, p, s, p.keycloakPodKey);
    DeletedProceeds(o, p, s1, p.keycloakService.key);
    ProceedsTransitive(p, s, s1, s2);
    if p.routes {
      DeletedProceeds(o, p, s2, p.keycloakRoute.key);
      ProceedsTransitive(p, s, s2, EnsureDeleted(o, s2, p.keycloakRoute.key));
    }
  }

  lemma AppPartProceeds(o: Oracle, p: Plan, s: Run, keycloakUrl: string, url: string)
    requires WellFormed(p) && InPlace(p, s) && (s.halt == None ==> AllThere(p, s.w.home))
    ensures var t := AppPart(o, p, s, keycloakUrl, url);
      Proceeds(p, s, t) && InPlace(p, t) && (t.halt == None ==> AllThere(p, t.w.home))
  {
    hide Proceeds, EnsureSame, Footprint, AllThere;
    ProceedsReflexive(p, s);
    if s.halt == None {
      FootprintHas(p);
      var t := s.(st := s.st.(publicUrl := url));
      IdleProceeds(p, s, t);
      PodProceeds(o, p, t, p.appPod(keycloakUrl, url));
      ProceedsTransitive(p, s, t, AppPart(o, p, s, keycloakUrl, url));
    }
  }

  lemma FinishProceeds(o: Oracle, p: Plan, s: Run)
    requires WellFormed(p) && InPlace(p, s) && (s.halt == None ==> AllThere(p, s.w.home))
    ensures Proceeds(p, s, Finish(o, p, s)) && InPlace(p, Finish(o, p, s)) && Finish(o, p, s).halt.Some?
  {
    hide Proceeds, EnsureSame, Footprint, AllThere;
    FootprintHas(p);
    ComparedProceeds(o, p, s, p.upload, Exists);
    var t := EnsureSame(o, p, s, p.upload, Exists).0;
    var u := Finish(o, p, s);
    if t.halt == None {
      IdleProceeds(p, t, u);
      ProceedsTransitive(p, s, t, u);
    }
  }

  /* The states of a run between its parts, and what it learned in them. */
  datatype Stages = Stages(
    s0: Run, s1: Run, s2: Run, s3: Run, s4: Run, s5: Run, s6: Run, s7: Run, s8: Run, s9: Run, end: Run,
    keycloakRoute: Option<Manifest>, keycloakUrl: string, appRoute: Option<Manifest>, url: string)

  function StagesOf(o: Oracle, p: Plan, s: Run): Stages {
    var s0 := Prologue(o, p, s);
    var s1 := TrustPart(o, p, s0);
    var s2 := SecretsPart(o, p, s1);
    var s3 := PostgresPart(o, p, s2);
    var (s4, keycloakRoute) := BuildRoute(o, p, s3, p.keycloakRoute);
    var (s5, keycloakUrl) := KeycloakUrl(o, p, s4, keycloakRoute);
    var s6 := KeycloakPart(o, p, s5, keycloakUrl);
    var (s7, appRoute) := BuildRoute(o, p, s6, p.appRoute);
    var (s8, url) := FindUrl(o, p, s7, p.appService, p.appAccess, appRoute);
    var s9 := AppPart(o, p, s8, keycloakUrl, url);
    Stages(s0, s1, s2, s3, s4, s5, s6, s7, s8, s9, Finish(o, p, s9), keycloakRoute, keycloakUrl, appRoute, url)
  }

  ghost predicate Staged(p: Plan, g: Stages) {
    && Proceeds(p, g.s0, g.s1) && Proceeds(p, g.s1, g.s2) && Proceeds(p, g.s2, g.s3) && Proceeds(p, g.s3, g.s4)
    && Proceeds(p, g.s4, g.s5) && Proceeds(p, g.s5, g.s6) && Proceeds(p, g.s6, g.s7) && Proceeds(p, g.s7, g.s8)
    && Proceeds(p, g.s8, g.s9) && Proceeds(p, g.s9, g.end)
  }

  predicate Housed(p: Plan, s: Run) {
    InPlace(p, s) && (s.halt == None ==> AllThere(p, s.w.home))
  }

  predicate AllHoused(p: Plan, g: Stages) {
    && InPlace(p, g.s0) && InPlace(p, g.s1) && Housed(p, g.s2) && Housed(p, g.s3) && Housed(p, g.s4)
    && Housed(p, g.s5) && Housed(p, g.s6) && Housed(p, g.s7) && Housed(p, g.s8) && Housed(p, g.s9)
  }

  lemma StagesHold(o: Oracle, p: Plan, s: Run)
    requires WellFormed(p) && InPlace(p, s) && s.halt == None
    ensures var g := StagesOf(o, p, s);
      && Staged(p, g) && AllHoused(p, g) && g.end == Execute(o, p, s) && g.end.halt.Some?
      && Kept(s, g.s0) && SameResource(s.w.cr, g.s0.w.cr)
  {
    hide Proceeds, AllThere, Quit, WellFormed, Footprint;
    hide TrustPart, SecretsPart, PostgresPart, BuildRoute, KeycloakUrl, KeycloakPart, FindUrl, AppPart, Finish;
    var g := StagesOf(o, p, s);
    PrologueKeeps(o, p, s);
    TrustPartProceeds(o, p, g.s0);
    SecretsPartProceeds(o, p, g.s1);
    PostgresPartProceeds(o, p, g.s2);
    BuildRouteProceeds(o, p, g.s3, p.keycloakRoute);
    KeycloakUrlProceeds(o, p, g.s4, g.keycloakRoute);
    KeycloakPartProceeds(o, p, g.s5, g.keycloakUrl);
    BuildRouteProceeds(o, p, g.s6, p.appRoute);
    AppFormed(p);
    FindUrlProceeds(o, p, g.s7, p.appService, p.appAccess, p.appRoute, g.appRoute);
    AppPartProceeds(o, p, g.s8, g.keycloakUrl, g.url);
    FinishProceeds(o, p, g.s9);
  }

  lemma ExecuteProceeds(o: Oracle, p: Plan, s: Run)
    requires WellFormed(p) && InPlace(p, s) && s.halt == None
    ensures var s0 := Prologue(o, p, s);
      Proceeds(p, s0, Execute(o, p, s)) && Kept(s, s0) && Execute(o, p, s).halt.Some?
  {
    hide Proceeds, StagesOf, Execute, WellFormed, AllHoused;
    var g := StagesOf(o, p, s);
    StagesHold(o, p, s);
    assert g.s0 == Prologue(o, p, s) by { FirstStage(o, p, s); }
    ProceedsTransitive(p, g.s0, g.s1, g.s2);
    ProceedsTransitive(p, g.s0, g.s2, g.s3);
    ProceedsTransitive(p, g.s0, g.s3, g.s4);
    ProceedsTransitive(p, g.s0, g.s4, g.s5);
    ProceedsTransitive(p, g.s0, g.s5, g.s6);
    ProceedsTransitive(p, g.s0, g.s6, g.s7);
    ProceedsTransitive(p, g.s0, g.s7, g.s8);
    ProceedsTransitive(p, g.s0, g.s8, g.s9);
    ProceedsTransitive(p, g.s0, g.s9, g.end);
  }

  lemma FirstStage(o: Oracle, p: Plan, s: Run)
    ensures StagesOf(o, p, s).s0 == Prologue(o, p, s)
  {
    hide TrustPart, SecretsPart, PostgresPart, BuildRoute, KeycloakUrl, KeycloakPart, FindUrl, AppPart;
    hide Finish, Prologue;
  }

  /* How the stages of a run follow from one another. */
  lemma StageSteps(o: Oracle, p: Plan, s: Run)
    ensures var g := StagesOf(o, p, s);
      && g.s1 == TrustPart(o, p, g.s0) && g.s2 == SecretsPart(o, p, g.s1) && g.s3 == PostgresPart(o, p, g.s2)
      && (g.s4, g.keycloakRoute) == BuildRoute(o, p, g.s3, p.keycloakRoute)
      && (g.s5, g.keycloakUrl) == KeycloakUrl(o, p, g.s4, g.keycloakRoute)
      && g.s6 == KeycloakPart(o, p, g.s5, g.keycloakUrl)
      && (g.s7, g.appRoute) == BuildRoute(o, p, g.s6, p.appRoute)
      && (g.s8, g.url) == FindUrl(o, p, g.s7, p.appService, p.appAccess, g.appRoute)
      && g.s9 == AppPart(o, p, g.s8, g.keycloakUrl, g.url) && g.end == Finish(o, p, g.s9)
      && g.end == Execute(o, p, s)
  {
    hide TrustPart, SecretsPart, PostgresPart, BuildRoute, Prologue, KeycloakUrl, KeycloakPart, FindUrl;
    hide AppPart, Finish;
  }

  lemma PrologueKeeps(o: Oracle, p: Plan, s: Run)
    requires s.halt == None
    ensures var s0 := Prologue(o, p, s);
      Kept(s, s0) && s0.w.ns == s.w.ns && SameResource(s.w.cr, s0.w.cr)
  {
  }

  lemma AppFormed(p: Plan)
    requires WellFormed(p)
    ensures p.appRoute.key in Footprint(p) && p.appRoute.key.kind == RouteKind
    ensures p.appService.key in Footprint(p) && OwnManifest(p.appService, ServiceKind, p.owner.ns)
    ensures p.keycloakRoute.key in Footprint(p) && p.keycloakRoute.key.kind == RouteKind
    ensures p.keycloakService.key in Footprint(p) && OwnManifest(p.keycloakService, ServiceKind, p.owner.ns)
  {
  }

  /* The four steps of the part that creates the chain of trust. */
  lemma TrustSteps(o: Oracle, p: Plan, s: Run)
    returns (s0: Run, authority: Option<Authority>, s1: Run, s2: Run, s3: Run)
    requires WellFormed(p) && InPlace(p, s) && !p.routes && s.halt == None
    ensures (s0, authority) == LoadAuthority(o, p, s) && s3 == TrustPart(o, p, s)
    ensures Proceeds(p, s, s0) && Proceeds(p, s0, s1) && Proceeds(p, s1, s2) && Proceeds(p, s2, s3)
    ensures InPlace(p, s0) && InPlace(p, s1) && InPlace(p, s2) && InPlace(p, s3)
    ensures authority.Some? <==> s0.halt == None
    ensures authority == None ==> s1 == s0 && s2 == s0 && s3 == s0
    ensures authority.Some? ==>
      && s1 == CreateIfMissing(o, p, s0, p.trustKey, Some(TrustBundle(p, authority.value)))
      && Provisioned(s0, s1, p.trustKey, Some(TrustBundle(p, authority.value)))
      && s2 == CreateIfMissing(o, p, s1, p.appCert.key, CertSecret(o, s1.w.clock + 1, p, authority.value, p.appCert))
      && Provisioned(s1, s2, p.appCert.key, CertSecret(o, s1.w.clock + 1, p, authority.value, p.appCert))
      && s3 == CreateIfMissing(o, p, s2, p.keycloakCert.key,
                               CertSecret(o, s2.w.clock + 1, p, authority.value, p.keycloakCert))
      && Provisioned(s2, s3, p.keycloakCert.key, CertSecret(o, s2.w.clock + 1, p, authority.value, p.keycloakCert))
  {
    hide Proceeds, LoadAuthority, CreateIfMissing, Provisioned, Footprint, InPlace, WellFormed, ServiceCertificate;
    FootprintHas(p);
    s3 := TrustPart(o, p, s);
    var (a, b) := LoadAuthority(o, p, s);
    s0, authority := a, b;
    LoadAuthorityProceeds(o, p, s);
    StaysInPlace(p, s, s0);
    s1, s2 := s0, s0;
    if authority == None {
      ProceedsReflexive(p, s0);
    } else {
      var bundle := Some(TrustBundle(p, authority.value));
      s1 := CreateIfMissing(o, p, s0, p.trustKey, bundle);
      ProvidedHere(o, p, s0, p.trustKey, bundle);
      s2 := CreateServiceCert(o, p, s1, authority, p.appCert);
      CertStep(o, p, s1, authority.value, p.appCert);
      CertStep(o, p, s2, authority.value, p.keycloakCert);
    }
  }

  lemma ProvidedHere(o: Oracle, p: Plan, s: Run, k: Key, made: Option<Manifest>)
    requires WellFormed(p) && InPlace(p, s) && k in Footprint(p)
    requires made.Some? ==> made.value.key == k && !made.value.PodM?
    ensures var t := CreateIfMissing(o, p, s, k, made);
      Proceeds(p, s, t) && InPlace(p, t) && Provisioned(s, t, k, made)
  {
    hide Proceeds, CreateIfMissing, Provisioned, Footprint, WellFormed;
    OwnKey(p, s, k);
    CreateIfMissingProvisions(o, p, s, k, made);
    StaysInPlace(p, s, CreateIfMissing(o, p, s, k, made));
  }

  lemma CertStep(o: Oracle, p: Plan, s: Run, authority: Authority, task: CertTask)
    requires WellFormed(p) && InPlace(p, s) && task.key in Footprint(p)
    ensures var made := CertSecret(o, s.w.clock + 1, p, authority, task);
      var t := CreateServiceCert(o, p, s, Some(authority), task);
      && t == CreateIfMissing(o, p, s, task.key, made)
      && Proceeds(p, s, t) && InPlace(p, t) && Provisioned(s, t, task.key, made)
  {
    hide Proceeds, Provisioned, Footprint, InPlace, WellFormed, ServiceCertificate, Create;
    ProvidedHere(o, p, s, task.key, CertSecret(o, s.w.clock + 1, p, authority, task));
  }
}
