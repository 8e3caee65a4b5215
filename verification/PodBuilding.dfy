/**
  The pods as the source builds them, by appending to their environment,
  volumes and mounts step by step (controllers/app.go:10-186, keycloak.go:14-114,
  postgres.go:49-187), proved to be the pods of Builders.
 */
module PodBuilding {
  import opened Wrappers
  import opened Resources
  import opened HorreumApi
  import opened Builders

  method BuildAppEnv(cr: Horreum, keycloakUrl: string, appUrl: string) returns (env: seq<EnvVar>)
    ensures env == AppEnv(cr, keycloakUrl, appUrl)
  {
    hide DbUrl, AppUserSecret, DbAdminSecret, KeycloakInternalUrl, AppInternalUrl;
    env := [
      Value("QUARKUS_DATASOURCE_JDBC_URL", DbUrl(cr, cr.spec.database, "horreum")),
      FromSecret("QUARKUS_DATASOURCE_USERNAME", AppUserSecret(cr), USERNAME),
      FromSecret("QUARKUS_DATASOURCE_PASSWORD", AppUserSecret(cr), PASSWORD),
      Value("QUARKUS_DATASOURCE_MIGRATION_JDBC_URL", DbUrl(cr, cr.spec.database, "horreum")),
      FromSecret("QUARKUS_DATASOURCE_MIGRATION_USERNAME", DbAdminSecret(cr), USERNAME),
      FromSecret("QUARKUS_DATASOURCE_MIGRATION_PASSWORD", DbAdminSecret(cr), PASSWORD),
      FromSecret("HORREUM_DB_SECRET", AppUserSecret(cr), DBSECRET),
      Value("QUARKUS_OIDC_AUTH_SERVER_URL", KeycloakInternalUrl(cr) + "/realms/horreum"),
      Value("QUARKUS_OIDC_TOKEN_ISSUER", keycloakUrl + "/realms/horreum"),
      Value("HORREUM_URL", appUrl),
      Value("HORREUM_INTERNAL_URL", AppInternalUrl(cr)),
      Value("HORREUM_KEYCLOAK_URL", keycloakUrl + "/")];
    if cr.javaOptions.Some? { env := env + [Value("JAVA_OPTIONS", cr.javaOptions.value)]; }
    if ServesTls(cr.spec.route.kind) {
      env := env + [
        Value("QUARKUS_HTTP_SSL_CERTIFICATE_FILE", "/opt/certs/tls.crt"),
        Value("QUARKUS_HTTP_SSL_CERTIFICATE_KEY_FILE", "/opt/certs/tls.key")];
    }
  }

  method BuildAppPod(cr: Horreum, keycloakUrl: string, appUrl: string) returns (pod: Manifest)
    ensures pod == AppPod(cr, keycloakUrl, appUrl)
  {
    hide AppEnv, AppImage, KeycloakInternalUrl, KeycloakAdminSecret, HorreumAdminSecret;
    var env := BuildAppEnv(cr, keycloakUrl, appUrl);
    var volumes := [Volume("imports", EmptyDir), Volume("service-ca", ConfigMapSource(SERVICE_CA))];
    var mounts := [IMPORTS];
    var kind := cr.spec.route.kind;
    if kind == "passthrough" || kind == "reencrypt" || kind == "" {
      var secretName := cr.name + "-app-certs";
      if kind == "passthrough" { secretName := cr.spec.route.tls; }
      volumes := volumes + [Volume("certs", SecretSource(secretName))];
      mounts := mounts + [Mount("certs", "/opt/certs", ""), CA_MOUNT];
    }
    var caCertArg := "";
    if kind == "reencrypt" || kind == "" { caCertArg := "--cacert /etc/ssl/certs/service-ca.crt"; }
    var init := [
      FromSecret("KEYCLOAK_USER", KeycloakAdminSecret(cr), USERNAME),
      FromSecret("KEYCLOAK_PASSWORD", KeycloakAdminSecret(cr), PASSWORD),
      FromSecret("ADMIN_USERNAME", HorreumAdminSecret(cr), USERNAME),
      FromSecret("ADMIN_PASSWORD", HorreumAdminSecret(cr), PASSWORD),
      Value("KC_URL", KeycloakInternalUrl(cr)),
      Value("CA_CERT_ARG", caCertArg),
      Value("APP_URL", appUrl)];
    assert mounts == AppMounts(cr) && volumes == AppVolumes(cr) && init == AppInitEnv(cr, appUrl);
    pod := PodM(Key(PodKind, cr.ns, cr.name + "-app"), Labels(cr, "app"),
                PodSpec(Some(0), None,
                        [Container("init", AppImage(cr), init, [], None, [IMPORTS, CA_MOUNT])],
                        [Container("horreum", AppImage(cr), env, [], None, mounts)],
                        volumes));
  }

  method BuildKeycloakPod(env: Env, cr: Horreum, url: string) returns (pod: Option<Manifest>)
    ensures pod == KeycloakPod(env, cr, url)
  {
    hide KeycloakEnv, WithDefault;
    var secretName := cr.name + "-keycloak-certs";
    if cr.spec.keycloak.route.kind == "passthrough" { secretName := cr.spec.keycloak.route.tls; }
    var host := env.parseHost(url);
    if host == None { return None; }
    var image := WithDefault(cr.spec.keycloak.image, "quay.io/hyperfoil/horreum-keycloak:latest");
    var spec := PodSpec(None, None, [],
                        [Container("keycloak", image, KeycloakEnv(cr, host.value), [8443], None,
                                   [Mount("certs", "/etc/x509/https", "")])],
                        [Volume("certs", SecretSource(secretName))]);
    return Some(PodM(Key(PodKind, cr.ns, cr.name + "-keycloak"), Labels(cr, "keycloak"), spec));
  }

  method BuildPostgresPod(cr: Horreum, redHat: bool) returns (pod: Manifest)
    ensures pod == PostgresPod(cr, redHat)
  {
    hide DbImage, DbAdminSecret, AppUserSecret, KeycloakDbSecret, WithDefault;
    var source := EmptyDir;
    if cr.spec.postgres.claim != "" { source := Claim(cr.spec.postgres.claim); }
    var image := DbImage(cr, redHat);
    var env := [
      FromSecret("KEYCLOAK_USER", KeycloakDbSecret(cr), USERNAME),
      FromSecret("KEYCLOAK_PASSWORD", KeycloakDbSecret(cr), PASSWORD),
      FromSecret("APP_USER", AppUserSecret(cr), USERNAME),
      FromSecret("APP_PASSWORD", AppUserSecret(cr), PASSWORD),
      FromSecret("APP_DB_SECRET", AppUserSecret(cr), DBSECRET)];
    var db := WithDefault(cr.spec.database.name, "horreum");
    var user, initDir;
    if IsUpstreamPostgres(image) {
      user, initDir := 999, "/docker-entrypoint-initdb.d/";
      env := env + [
        Value("POSTGRES_DB", db), Value("PGDATABASE", db), Value("PGDATA", "/var/lib/pgsql/data"),
        FromSecret("PGUSER", DbAdminSecret(cr), USERNAME),
        FromSecret("POSTGRES_USER", DbAdminSecret(cr), USERNAME),
        FromSecret("POSTGRESQL_USER", DbAdminSecret(cr), USERNAME),
        FromSecret("POSTGRES_PASSWORD", DbAdminSecret(cr), PASSWORD)];
    } else {
      user, initDir := 26, "/opt/app-root/src/postgresql-start";
      env := env + [
        Value("POSTGRESQL_DATABASE", db),
        FromSecret("POSTGRESQL_USER", DbAdminSecret(cr), USERNAME),
        FromSecret("POSTGRESQL_PASSWORD", DbAdminSecret(cr), PASSWORD)];
    }
    if cr.spec.postgres.user.Some? { user := cr.spec.postgres.user.value; }
    var init := [];
    if !redHat { init := init + [Container("init", image, [], [], Some(0), [DATA])]; }
    var spec := PodSpec(None, Some(user), init,
                        [Container("postgres", image, env, [5432], Some(user),
                                   [DATA, Mount("postgresql-start", initDir, "")])],
                        [Volume("db-volume", source),
                         Volume("postgresql-start", ConfigMapSource(cr.name + "-postgresql-start"))]);
    pod := PodM(Key(PodKind, cr.ns, cr.name + "-db"), Labels(cr, "db"), spec);
  }
}
