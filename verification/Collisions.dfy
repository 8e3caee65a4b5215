/**
  The exact name collisions of the operator's default names: within one
  resource there are none, and two resources of one namespace collide just when
  one is named like the other with -db or -keycloak after it
  (controllers/defaults.go:16-34).
 */
module Collisions {
  import opened Resources
  import opened HorreumApi
  import opened Plans
  import opened Builders
  import opened Worlds
  import opened Reconciling
  import opened Effects
  import opened Safety
  import opened Histories
  import Names

  /* None of the five secrets is named by the user. */
  predicate DefaultSecrets(cr: Horreum) {
    && cr.spec.postgres.adminSecret == "" && cr.spec.database.secret == ""
    && cr.spec.keycloak.database.secret == "" && cr.spec.keycloak.adminSecret == "" && cr.spec.adminSecret == ""
  }

  /* The names of the objects of one kind, service-ca.crt excepted. */
  function DefaultNames(kind: Kind, n: string): set<string> {
    match kind
    case PodKind => {n + "-db", n + "-keycloak", n + "-app"}
    case ServiceKind => {n + "", n + "-db", n + "-keycloak"}
    case RouteKind => {n + "", n + "-keycloak"}
    case SecretKind =>
      {n + "-ca-certs", n + "-app-certs", n + "-keycloak-certs", n + "-app", n + "-keycloak-db",
       n + "-admin", n + "-db-admin", n + "-keycloak-admin"}
    case ConfigMapKind => {n + "-postgresql-start", n + "-hyperfoil-upload"}
  }

  predicate IsDefaultKey(ns: string, name: string, k: Key) {
    k.ns == ns && k.name in DefaultNames(k.kind, name)
  }

  lemma PlanKeys(env: Env, cr: Horreum)
    requires DefaultSecrets(cr)
    ensures var p := PlanOf(env, cr);
      && SecretKeys(p) == {SecretKey(cr, cr.name + "-db-admin"), SecretKey(cr, cr.name + "-app"),
                           SecretKey(cr, cr.name + "-keycloak-admin"), SecretKey(cr, cr.name + "-keycloak-db"),
                           SecretKey(cr, cr.name + "-admin")}
      && CertKeys(p) == {SecretKey(cr, cr.name + "-ca-certs"), SecretKey(cr, cr.name + "-app-certs"),
                         SecretKey(cr, cr.name + "-keycloak-certs")}
      && p.trustKey == Key(ConfigMapKind, cr.ns, SERVICE_CA)
      && p.postgresMap.key == Key(ConfigMapKind, cr.ns, cr.name + "-postgresql-start")
      && p.upload.key == Key(ConfigMapKind, cr.ns, cr.name + "-hyperfoil-upload")
  {
    hide PostgresPod, PostgresService, KeycloakPod, KeycloakService, KeycloakRoute;
    hide AppPod, AppService, AppRoute;
  }

  lemma WorkloadKeys(env: Env, cr: Horreum)
    ensures var p := PlanOf(env, cr);
      && p.postgresPod.key == Key(PodKind, cr.ns, cr.name + "-db")
      && p.keycloakPodKey == Key(PodKind, cr.ns, cr.name + "-keycloak")
      && p.appPodKey == Key(PodKind, cr.ns, cr.name + "-app")
      && p.postgresService.key == Key(ServiceKind, cr.ns, cr.name + "-db")
      && p.keycloakService.key == Key(ServiceKind, cr.ns, cr.name + "-keycloak")
      && p.appService.key == Key(ServiceKind, cr.ns, cr.name + "")
      && p.keycloakRoute.key == Key(RouteKind, cr.ns, cr.name + "-keycloak")
      && p.appRoute.key == Key(RouteKind, cr.ns, cr.name + "")
  {
    hide PostgresPodSpec, PostgresConfigMap, KeycloakPod, AppPod, UploadConfig;
    hide DbAdminSecret, AppUserSecret, KeycloakAdminSecret, KeycloakDbSecret, HorreumAdminSecret;
    assert cr.name + "" == cr.name;
  }

  /** The footprint of a resource that leaves all names to the operator. */
  lemma FootprintIsDefault(env: Env, cr: Horreum, k: Key)
    requires DefaultSecrets(cr)
    ensures k in Footprint(PlanOf(env, cr)) <==>
      k == Key(ConfigMapKind, cr.ns, SERVICE_CA) || IsDefaultKey(cr.ns, cr.name, k)
  {
    hide PlanOf, SecretKeys, CertKeys;
    PlanKeys(env, cr);
    WorkloadKeys(env, cr);
  }

  // One resource

  function Suffixes(kind: Kind): seq<string> {
    match kind
    case PodKind => ["-db", "-keycloak", "-app"]
    case ServiceKind => ["", "-db", "-keycloak"]
    case RouteKind => ["", "-keycloak"]
    case SecretKind =>
      ["-ca-certs", "-app-certs", "-keycloak-certs", "-app", "-keycloak-db", "-admin", "-db-admin", "-keycloak-admin"]
    case ConfigMapKind => ["-postgresql-start", "-hyperfoil-upload"]
  }

  predicate Distinct(xs: seq<string>) {
    forall i, j | 0 <= i < j < |xs| :: xs[i] != xs[j]
  }

  function AllNames(n: string, xs: seq<string>): set<string> {
    set i | 0 <= i < |xs| :: n + xs[i]
  }

  lemma {:induction false} DistinctNames(n: string, xs: seq<string>)
    requires Distinct(xs)
    ensures |AllNames(n, xs)| == |xs|
  {
    if xs != [] {
      var l := |xs| - 1;
      DistinctNames(n, xs[..l]);
      assert forall i | 0 <= i < l :: n + xs[i] != n + xs[l] by {
        forall i | 0 <= i < l ensures n + xs[i] != n + xs[l] { Names.SuffixesDiffer(n, xs[i], xs[l]); }
      }
      assert AllNames(n, xs) == AllNames(n, xs[..l]) + {n + xs[l]};
    }
  }

  lemma SuffixesAreDistinct(kind: Kind)
    ensures Distinct(Suffixes(kind))
  {
    var xs := Suffixes(kind);
    if kind == SecretKind {
      assert xs[0][1] == 'c' && xs[1][4] == '-' && xs[2][1] == 'k' && |xs[3]| == 4 && xs[4][|xs[4]| - 1] == 'b';
      assert |xs[0]| == 9 && |xs[1]| == 10 && |xs[2]| == 15 && |xs[4]| == 12;
      assert |xs[5]| == 6 && |xs[6]| == 9 && |xs[7]| == 15;
      assert xs[6][1] == 'd' && xs[7][|xs[7]| - 1] == 'n' && xs[2][|xs[2]| - 1] == 's';
    }
  }

  /** Within one resource all names of one kind are distinct. */
  lemma NamesAreDistinct(kind: Kind, n: string)
    ensures |DefaultNames(kind, n)| == |Suffixes(kind)|
  {
    hide Distinct;
    SuffixesAreDistinct(kind);
    DistinctNames(n, Suffixes(kind));
    NamesBySuffix(kind, n);
  }

  lemma NamesBySuffix(kind: Kind, n: string)
    ensures DefaultNames(kind, n) == AllNames(n, Suffixes(kind))
  {
    var xs := Suffixes(kind);
    assert forall i | 0 <= i < |xs| :: n + xs[i] in DefaultNames(kind, n);
    forall name | name in DefaultNames(kind, n) ensures name in AllNames(n, xs) {
      assert exists i | 0 <= i < |xs| :: name == n + xs[i] by {
        match kind
        case PodKind => assert name == n + xs[0] || name == n + xs[1] || name == n + xs[2];
        case ServiceKind => assert name == n + xs[0] || name == n + xs[1] || name == n + xs[2];
        case RouteKind => assert name == n + xs[0] || name == n + xs[1];
        case SecretKind =>
          assert name == n + xs[0] || name == n + xs[1] || name == n + xs[2] || name == n + xs[3] ||
                 name == n + xs[4] || name == n + xs[5] || name == n + xs[6] || name == n + xs[7];
        case ConfigMapKind => assert name == n + xs[0] || name == n + xs[1];
      }
    }
  }

  // Two resources

  lemma SameEnding(a: string, b: string, x: string)
    ensures a + x == b + x ==> a == b
  {
    if a + x == b + x {
      assert a == (a + x)[..|a|] && b == (b + x)[..|b|];
    }
  }

  /* One of the names is the other with this ending. */
  predicate Extends(a: string, b: string, ending: string) {
    a == b + ending || b == a + ending
  }

  predicate Clash(a: string, b: string) {
    Extends(a, b, "-db") || Extends(a, b, "-keycloak")
  }

  /* The character this far from the end. */
  lemma FromTheEnd(n: string, x: string, i: nat)
    requires i < |x|
    ensures (n + x)[|n + x| - 1 - i] == x[|x| - 1 - i]
  {
  }

  lemma PodNames(a: string, b: string, name: string)
    requires name in DefaultNames(PodKind, a) && name in DefaultNames(PodKind, b)
    ensures a == b
  {
    forall n: string, x | x in {"-db", "-keycloak", "-app"} ensures (n + x)[|n + x| - 1] == x[|x| - 1] {
      FromTheEnd(n, x, 0);
    }
    SameEnding(a, b, "-db");
    SameEnding(a, b, "-keycloak");
    SameEnding(a, b, "-app");
  }

  lemma ConfigMapNames(a: string, b: string, name: string)
    requires name in DefaultNames(ConfigMapKind, a) && name in DefaultNames(ConfigMapKind, b)
    ensures a == b
  {
    forall n: string, x | x in {"-postgresql-start", "-hyperfoil-upload"} ensures (n + x)[|n + x| - 1] == x[|x| - 1] {
      FromTheEnd(n, x, 0);
    }
    SameEnding(a, b, "-postgresql-start");
    SameEnding(a, b, "-hyperfoil-upload");
  }

  lemma ServiceNames(a: string, b: string, name: string)
    requires name in DefaultNames(ServiceKind, a) && name in DefaultNames(ServiceKind, b)
    ensures a == b || Clash(a, b)
  {
    assert a + "" == a && b + "" == b;
    FromTheEnd(a, "-db", 0);
    FromTheEnd(b, "-db", 0);
    FromTheEnd(a, "-keycloak", 0);
    FromTheEnd(b, "-keycloak", 0);
    SameEnding(a, b, "-db");
    SameEnding(a, b, "-keycloak");
  }

  lemma RouteNames(a: string, b: string, name: string)
    requires name in DefaultNames(RouteKind, a) && name in DefaultNames(RouteKind, b)
    ensures a == b || Clash(a, b)
  {
    assert a + "" == a && b + "" == b;
    SameEnding(a, b, "-keycloak");
  }

  /* The names of secrets fall into five groups by how they end. */
  predicate AdminName(n: string, name: string) {
    name == n + "-admin" || name == n + "-db-admin" || name == n + "-keycloak-admin"
  }

  function Group(name: string): (char, char) {
    if name == "" then ('-', '-')
    else
      var last := name[|name| - 1];
      (last, if last == 's' && |name| >= 7 then name[|name| - 7] else '-')
  }

  lemma GroupOf(n: string, x: string)
    requires x != ""
    ensures Group(n + x) ==
      (x[|x| - 1], if x[|x| - 1] == 's' && |n + x| >= 7 then (n + x)[|n + x| - 7] else '-')
    ensures |x| >= 7 ==> (n + x)[|n + x| - 7] == x[|x| - 7]
  {
    FromTheEnd(n, x, 0);
    if |x| >= 7 { FromTheEnd(n, x, 6); }
  }

  lemma SecretGroups(n: string)
    ensures Group(n + "-ca-certs") == ('s', 'a') && Group(n + "-app-certs") == ('s', 'p')
    ensures Group(n + "-keycloak-certs") == ('s', 'k')
    ensures Group(n + "-app") == ('p', '-') && Group(n + "-keycloak-db") == ('b', '-')
    ensures Group(n + "-admin") == ('n', '-') && Group(n + "-db-admin") == ('n', '-')
    ensures Group(n + "-keycloak-admin") == ('n', '-')
  {
    hide Group;
    GroupOf(n, "-ca-certs");
    GroupOf(n, "-app-certs");
    GroupOf(n, "-keycloak-certs");
    GroupOf(n, "-app");
    GroupOf(n, "-keycloak-db");
    GroupOf(n, "-admin");
    GroupOf(n, "-db-admin");
    GroupOf(n, "-keycloak-admin");
  }

  lemma AdminNames(a: string, b: string, name: string)
    requires AdminName(a, name) && AdminName(b, name)
    ensures a == b || Clash(a, b)
  {
    forall n: string
      ensures n + "-db-admin" == (n + "-db") + "-admin"
      ensures n + "-keycloak-admin" == (n + "-keycloak") + "-admin"
    {
      assert "-db-admin" == "-db" + "-admin" && "-keycloak-admin" == "-keycloak" + "-admin";
    }
    SameEnding(a, b, "-admin");
    SameEnding(a, b + "-db", "-admin");
    SameEnding(a, b + "-keycloak", "-admin");
    SameEnding(a + "-db", b, "-admin");
    SameEnding(a + "-keycloak", b, "-admin");
    SameEnding(a + "-db", b + "-keycloak", "-admin");
    SameEnding(a + "-keycloak", b + "-db", "-admin");
    SameEnding(a, b, "-db-admin");
    SameEnding(a, b, "-keycloak-admin");
    FromTheEnd(a, "-db", 0);
    FromTheEnd(b, "-db", 0);
    FromTheEnd(a, "-keycloak", 0);
    FromTheEnd(b, "-keycloak", 0);
  }

  lemma SecretNames(a: string, b: string, name: string)
    requires name in DefaultNames(SecretKind, a) && name in DefaultNames(SecretKind, b)
    ensures a == b || Clash(a, b)
  {
    hide Group, Clash;
    SecretGroups(a);
    SecretGroups(b);
    if AdminName(a, name) {
      AdminNames(a, b, name);
    } else {
      SameEnding(a, b, "-ca-certs");
      SameEnding(a, b, "-app-certs");
      SameEnding(a, b, "-keycloak-certs");
      SameEnding(a, b, "-app");
      SameEnding(a, b, "-keycloak-db");
    }
  }

  lemma ServiceCaIsNobodys(n: string)
    ensures SERVICE_CA !in DefaultNames(ConfigMapKind, n)
  {
    Names.ConfigMapsDiffer(n);
  }

  lemma SharedKey(ns: string, a: string, b: string, k: Key)
    requires IsDefaultKey(ns, a, k) && IsDefaultKey(ns, b, k)
    ensures a == b || Clash(a, b)
  {
    hide DefaultNames, Clash;
    match k.kind
    case PodKind => PodNames(a, b, k.name);
    case ServiceKind => ServiceNames(a, b, k.name);
    case RouteKind => RouteNames(a, b, k.name);
    case SecretKind => SecretNames(a, b, k.name);
    case ConfigMapKind => ConfigMapNames(a, b, k.name);
  }

  lemma ClashingKey(ns: string, a: string, b: string)
    requires Clash(a, b)
    ensures exists k :: IsDefaultKey(ns, a, k) && IsDefaultKey(ns, b, k)
  {
    var longer := if a == b + "-db" || a == b + "-keycloak" then a else b;
    var k := Key(ServiceKind, ns, longer);
    assert longer + "" == longer;
    assert IsDefaultKey(ns, a, k) && IsDefaultKey(ns, b, k);
  }

  /** The exact theorem: two resources of one namespace that leave all names to
      the operator share no object but service-ca.crt, if and only if neither is
      named like the other with -db or -keycloak after it. */
  lemma FootprintsMeetIff(env: Env, a: Horreum, b: Horreum)
    requires DefaultSecrets(a) && DefaultSecrets(b) && a.ns == b.ns && a.name != b.name
    ensures Footprint(PlanOf(env, a)) * Footprint(PlanOf(env, b)) == {Key(ConfigMapKind, a.ns, SERVICE_CA)} <==>
      !Clash(a.name, b.name)
  {
    hide PlanOf, Footprint, Clash, DefaultNames;
    var shared := Key(ConfigMapKind, a.ns, SERVICE_CA);
    var both := Footprint(PlanOf(env, a)) * Footprint(PlanOf(env, b));
    forall k ensures k in both <==>
      k == shared || (IsDefaultKey(a.ns, a.name, k) && IsDefaultKey(a.ns, b.name, k))
    {
      FootprintIsDefault(env, a, k);
      FootprintIsDefault(env, b, k);
      ServiceCaIsNobodys(a.name);
      ServiceCaIsNobodys(b.name);
    }
    if Clash(a.name, b.name) {
      ClashingKey(a.ns, a.name, b.name);
      var k :| IsDefaultKey(a.ns, a.name, k) && IsDefaultKey(a.ns, b.name, k);
      ServiceCaIsNobodys(a.name);
      assert k in both && k != shared;
    } else {
      forall k | k in both ensures k == shared {
        if k != shared { SharedKey(a.ns, a.name, b.name, k); }
      }
      assert shared in both;
    }
  }

  /** So a run for the one resource leaves all objects of the other alone. */
  lemma NeighboursAreSafe(o: Oracle, env: Env, w: World, b: Horreum, k: Key)
    requires Sound(w) && w.cr.Some? && DefaultSecrets(w.cr.value) && DefaultSecrets(b)
    requires b.ns == w.ns && b.name != w.cr.value.name && !Clash(w.cr.value.name, b.name)
    requires k in Footprint(PlanOf(env, b)) && k != Key(ConfigMapKind, w.ns, SERVICE_CA)
    ensures var h, h' := w.home, Reconcile(o, env, w).w.home;
      (k in h' <==> k in h) && (k in h ==> h'[k] == h[k])
  {
    hide Reconcile, PlanOf, Footprint, Clash, Explained;
    FootprintsMeetIff(env, w.cr.value, b);
    RunsAreSafe(o, env, w);
    var p, q := PlanOf(env, w.cr.value), PlanOf(env, b);
    assert k in Footprint(p) <==> k in Footprint(p) * Footprint(q);
    OutsideStays(p, w.home, Changes(w, Reconcile(o, env, w)), Reconcile(o, env, w).w.home, k);
  }
}
