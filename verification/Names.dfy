/**
  Names of the objects of one Horreum resource, and of two of them in one
  namespace (controllers/defaults.go, app.go, keycloak.go, postgres.go,
  certificates.go).
 */
module Names {
  import opened Resources
  import opened HorreumApi
  import opened Plans
  import opened Builders

  lemma SamePrefix(base: string, a: string, b: string)
    ensures base + a == base + b ==> a == b
  {
    if base + a == base + b {
      assert a == (base + a)[|base|..] && b == (base + b)[|base|..];
    }
  }

  lemma SuffixesDiffer(base: string, a: string, b: string)
    requires a != b
    ensures base + a != base + b
  {
    SamePrefix(base, a, b);
  }

  lemma EndsDiffer(a: string, b: string, i: nat)
    requires i < |a| && i < |b| && a[|a| - 1 - i] != b[|b| - 1 - i]
    ensures forall x: string, y: string :: x + a != y + b
  {
    forall x: string, y: string ensures x + a != y + b {
      var s, t := x + a, y + b;
      assert s[|s| - 1 - i] == a[|a| - 1 - i];
      assert t[|t| - 1 - i] == b[|b| - 1 - i];
    }
  }

  lemma ConfigMapsDiffer(n: string)
    ensures SERVICE_CA != n + "-postgresql-start"
    ensures SERVICE_CA != n + "-hyperfoil-upload"
    ensures n + "-postgresql-start" != n + "-hyperfoil-upload"
  {
    assert "" + SERVICE_CA == SERVICE_CA;
    EndsDiffer(SERVICE_CA, "-postgresql-start", 2);
    EndsDiffer(SERVICE_CA, "-hyperfoil-upload", 0);
    SuffixesDiffer(n, "-postgresql-start", "-hyperfoil-upload");
  }

  lemma CertificatesDiffer(n: string)
    ensures n + "-ca-certs" != n + "-app-certs"
    ensures n + "-ca-certs" != n + "-keycloak-certs"
    ensures n + "-app-certs" != n + "-keycloak-certs"
  {
    SuffixesDiffer(n, "-ca-certs", "-app-certs");
    SuffixesDiffer(n, "-ca-certs", "-keycloak-certs");
    SuffixesDiffer(n, "-app-certs", "-keycloak-certs");
  }

  lemma WorkloadsDiffer(n: string)
    ensures n + "-db" != n + "-keycloak" && n + "-db" != n + "-app" && n + "-keycloak" != n + "-app"
    ensures n + "-db" != n && n + "-keycloak" != n
  {
    SuffixesDiffer(n, "-db", "-keycloak");
    SuffixesDiffer(n, "-db", "-app");
    SuffixesDiffer(n, "-keycloak", "-app");
  }

  lemma PlanSecrets(env: Env, cr: Horreum)
    ensures SecretsFormed(PlanFor(env, cr))
  {
    hide PostgresPod, PostgresConfigMap, PostgresService, KeycloakPod, KeycloakService, KeycloakRoute;
    hide AppPod, AppService, AppRoute, UploadConfig;
    hide DbAdminSecret, AppUserSecret, KeycloakAdminSecret, KeycloakDbSecret, HorreumAdminSecret;
    CertificatesDiffer(cr.name);
  }

  lemma PlanMaps(env: Env, cr: Horreum)
    ensures MapsFormed(PlanFor(env, cr))
  {
    hide PostgresPod, PostgresService, KeycloakPod, KeycloakService, KeycloakRoute, AppPod, AppService, AppRoute;
    hide DbAdminSecret, AppUserSecret, KeycloakAdminSecret, KeycloakDbSecret, HorreumAdminSecret;
    hide KeycloakInternalUrl, AppInternalUrl;
    ConfigMapsDiffer(cr.name);
  }

  lemma PlanPods(env: Env, cr: Horreum)
    ensures PodsFormed(PlanFor(env, cr))
  {
    hide PostgresPodSpec, KeycloakPodSpec, AppPodSpec;
    hide PostgresConfigMap, PostgresService, KeycloakService, KeycloakRoute, AppService, AppRoute, UploadConfig;
    hide DbAdminSecret, AppUserSecret, KeycloakAdminSecret, KeycloakDbSecret, HorreumAdminSecret;
    WorkloadsDiffer(cr.name);
  }

  lemma PlanServices(env: Env, cr: Horreum)
    ensures ServicesFormed(PlanFor(env, cr))
  {
    hide PostgresPod, PostgresConfigMap, KeycloakPod, KeycloakRoute, AppPod, AppRoute, UploadConfig;
    hide DbAdminSecret, AppUserSecret, KeycloakAdminSecret, KeycloakDbSecret, HorreumAdminSecret;
    WorkloadsDiffer(cr.name);
  }

  lemma PlanRoutes(env: Env, cr: Horreum)
    ensures RoutesFormed(PlanFor(env, cr))
  {
    hide PostgresPod, PostgresConfigMap, PostgresService, KeycloakPod, KeycloakService, AppPod, AppService;
    hide UploadConfig;
    hide DbAdminSecret, AppUserSecret, KeycloakAdminSecret, KeycloakDbSecret, HorreumAdminSecret;
    WorkloadsDiffer(cr.name);
    assert cr.name + "" == cr.name;
  }

  /** No two objects of one kind get the same name, whatever the spec says,
      secrets named by the user excepted. */
  lemma PlanIsWellFormed(env: Env, cr: Horreum)
    ensures WellFormed(PlanOf(env, cr))
  {
    hide PlanFor, SecretsFormed, MapsFormed, PodsFormed, ServicesFormed, RoutesFormed;
    var bare := cr.(status := NO_STATUS);
    PlanSecrets(env, bare);
    PlanMaps(env, bare);
    PlanPods(env, bare);
    PlanServices(env, bare);
    PlanRoutes(env, bare);
  }

  lemma PlanOwner(env: Env, cr: Horreum)
    ensures PlanOf(env, cr).owner == Owner(cr.ns, cr.name)
  {
    hide PostgresPod, PostgresConfigMap, PostgresService, KeycloakPod, KeycloakService, KeycloakRoute;
    hide AppPod, AppService, AppRoute, UploadConfig;
    hide DbAdminSecret, AppUserSecret, KeycloakAdminSecret, KeycloakDbSecret, HorreumAdminSecret;
  }
}
