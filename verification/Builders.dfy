/**
  The desired objects: controllers/defaults.go, utils.go, app.go, keycloak.go and
  postgres.go.  Shell scripts, commands and env vars with constant values are not
  kept; names, references, addresses, ports and labels are.
 */
module Builders {
  import opened Wrappers
  import opened Resources
  import opened HorreumApi
  import opened Plans
  import opened Steps

  /* The operator's own settings, and url.ParseRequestURI reduced to
     the Host it yields, which includes the port. */
  datatype Env = Env(routes: bool, redHat: bool, parseHost: string -> Option<string>)

  // controllers/utils.go

  function WithDefault(custom: string, default: string): string {
    if custom == "" then default else custom
  }

  function Digits(n: int): string {
    if n < 0 then "-" + Decimal(-n) else Decimal(n)
  }

  function WithDefaultInt(custom: int, default: int): string {
    if custom == 0 then Digits(default) else Digits(custom)
  }

  predicate PlainInside(route: RouteSpec) {
    route.kind == "http" || route.kind == "edge"
  }

  function InnerProtocol(route: RouteSpec): string {
    if PlainInside(route) then "http://" else "https://"
  }

  function ServicePort(route: RouteSpec, httpPort: int, httpsPort: int): Port {
    if PlainInside(route) then Port("http", 80, httpPort) else Port("https", 443, httpsPort)
  }

  function ServiceType(custom: string, routes: bool): string {
    if custom != "" then custom else if routes then "ClusterIP" else "NodePort"
  }

  predicate IsNodePort(custom: string, routes: bool) {
    custom == "NodePort" || (custom == "" && !routes)
  }

  function AccessOf(custom: string, routes: bool): Access {
    if IsNodePort(custom, routes) then ByNodePort
    else if custom == "LoadBalancer" then ByLoadBalancer
    else if routes then ByRoute
    else Nowhere
  }

  function TlsModeOf(kind: string): TlsMode {
    if kind == "http" then NoTls
    else if kind == "passthrough" then Passthrough
    else if kind == "edge" then Secured(EdgeTermination)
    else if kind == "reencrypt" || kind == "" then Secured(ReencryptTermination)
    else BadType
  }

  function RouteTaskFor(cr: Horreum, route: RouteSpec, suffix: string, supported: bool): RouteTask {
    RouteTask(Key(RouteKind, cr.ns, cr.name + suffix), route.host,
              if route.host == "" then cr.name + suffix else "",
              supported, TlsModeOf(cr.spec.route.kind), cr.spec.route.tls, route.tls)
  }

  // controllers/defaults.go

  function InternalHost(cr: Horreum, suffix: string): string {
    cr.name + suffix + "." + cr.ns + ".svc"
  }

  function DbDefaultHost(cr: Horreum): string {
    InternalHost(cr, "-db")
  }

  function DbUrl(cr: Horreum, db: DatabaseSpec, defaultName: string): string {
    "jdbc:postgresql://" + WithDefault(db.host, DbDefaultHost(cr)) +
    ":" + WithDefaultInt(db.port, 5432) + "/" + WithDefault(db.name, defaultName)
  }

  function DbAdminSecret(cr: Horreum): string {
    WithDefault(cr.spec.postgres.adminSecret, cr.name + "-db-admin")
  }

  function AppUserSecret(cr: Horreum): string {
    WithDefault(cr.spec.database.secret, cr.name + "-app")
  }

  function KeycloakDbSecret(cr: Horreum): string {
    WithDefault(cr.spec.keycloak.database.secret, cr.name + "-keycloak-db")
  }

  function KeycloakAdminSecret(cr: Horreum): string {
    WithDefault(cr.spec.keycloak.adminSecret, cr.name + "-keycloak-admin")
  }

  function HorreumAdminSecret(cr: Horreum): string {
    WithDefault(cr.spec.adminSecret, cr.name + "-admin")
  }

  function DbImage(cr: Horreum, redHat: bool): string {
    WithDefault(cr.spec.postgres.image,
                if redHat then "registry.redhat.io/rhel8/postgresql-12:latest" else "docker.io/library/postgres:14.4")
  }

  function AppImage(cr: Horreum): string {
    WithDefault(cr.spec.image, "quay.io/hyperfoil/horreum:latest")
  }

  function KeycloakInternalUrl(cr: Horreum): string {
    if cr.spec.keycloak.external.internalUri != "" then cr.spec.keycloak.external.internalUri
    else if cr.spec.keycloak.external.publicUri != "" then cr.spec.keycloak.external.publicUri
    else "https://" + InternalHost(cr, "-keycloak")
  }

  function AppInternalUrl(cr: Horreum): string {
    InnerProtocol(cr.spec.route) + InternalHost(cr, "")
  }

  const SERVICE_CA := "service-ca.crt"

  // controllers/app.go

  predicate ServesTls(kind: string) {
    kind == "passthrough" || kind == "reencrypt" || kind == ""
  }

  function AppCertSecret(cr: Horreum): string {
    if cr.spec.route.kind == "passthrough" then cr.spec.route.tls else cr.name + "-app-certs"
  }

  function AppEnv(cr: Horreum, keycloakUrl: string, appUrl: string): seq<EnvVar> {
    [ Value("QUARKUS_DATASOURCE_JDBC_URL", DbUrl(cr, cr.spec.database, "horreum")),
      FromSecret("QUARKUS_DATASOURCE_USERNAME", AppUserSecret(cr), USERNAME),
      FromSecret("QUARKUS_DATASOURCE_PASSWORD", AppUserSecret(cr), PASSWORD),
      Value("QUARKUS_DATASOURCE_MIGRATION_JDBC_URL", DbUrl(cr, cr.spec.database, "horreum")),
      FromSecret("QUARKUS_DATASOURCE_MIGRATION_USERNAME", DbAdminSecret(cr), USERNAME),
      FromSecret("QUARKUS_DATASOURCE_MIGRATION_PASSWORD", DbAdminSecret(cr), PASSWORD),
      FromSecret("HORREUM_DB_SECRET", AppUserSecret(cr), DBSECRET),
      Value("QUARKUS_OIDC_AUTH_SERVER_URL", KeycloakInternalUrl(cr) + "/realms/horreum"),
      Value("QUARKUS_OIDC_TOKEN_ISSUER", keycloakUrl + "/realms/horreum"),
      Value("HORREUM_URL", appUrl),
      Value("HORREUM_INTERNAL_URL", AppInternalUrl(cr)),
      Value("HORREUM_KEYCLOAK_URL", keycloakUrl + "/")
    ] +
    (if cr.javaOptions.Some? then [Value("JAVA_OPTIONS", cr.javaOptions.value)] else []) +
    (if ServesTls(cr.spec.route.kind) then
       [ Value("QUARKUS_HTTP_SSL_CERTIFICATE_FILE", "/opt/certs/tls.crt"),
         Value("QUARKUS_HTTP_SSL_CERTIFICATE_KEY_FILE", "/opt/certs/tls.key")]
     else [])
  }

  const IMPORTS := Mount("imports", "/etc/horreum/imports", "")
  const CA_MOUNT := Mount("service-ca", "/etc/ssl/certs/service-ca.crt", SERVICE_CA)

  function AppMounts(cr: Horreum): seq<Mount> {
    [IMPORTS] +
    (if ServesTls(cr.spec.route.kind) then [Mount("certs", "/opt/certs", ""), CA_MOUNT] else [])
  }

  function AppVolumes(cr: Horreum): seq<Volume> {
    [Volume("imports", EmptyDir), Volume("service-ca", ConfigMapSource(SERVICE_CA))] +
    (if ServesTls(cr.spec.route.kind) then [Volume("certs", SecretSource(AppCertSecret(cr)))] else [])
  }

  function CaCertArg(cr: Horreum): string {
    if cr.spec.route.kind == "reencrypt" || cr.spec.route.kind == "" then "--cacert /etc/ssl/certs/service-ca.crt"
    else ""
  }

  function AppInitEnv(cr: Horreum, appUrl: string): seq<EnvVar> {
    [ FromSecret("KEYCLOAK_USER", KeycloakAdminSecret(cr), USERNAME),
      FromSecret("KEYCLOAK_PASSWORD", KeycloakAdminSecret(cr), PASSWORD),
      FromSecret("ADMIN_USERNAME", HorreumAdminSecret(cr), USERNAME),
      FromSecret("ADMIN_PASSWORD", HorreumAdminSecret(cr), PASSWORD),
      Value("KC_URL", KeycloakInternalUrl(cr)),
      Value("CA_CERT_ARG", CaCertArg(cr)),
      Value("APP_URL", appUrl)]
  }

  function Labels(cr: Horreum, service: string): map<string, string> {
    map["app" := cr.name, "service" := service]
  }

  function AppPodSpec(cr: Horreum, keycloakUrl: string, appUrl: string): PodSpec {
    PodSpec(Some(0), None,
            [Container("init", AppImage(cr), AppInitEnv(cr, appUrl), [], None, [IMPORTS, CA_MOUNT])],
            [Container("horreum", AppImage(cr), AppEnv(cr, keycloakUrl, appUrl), [], None, AppMounts(cr))],
            AppVolumes(cr))
  }

  function AppPod(cr: Horreum, keycloakUrl: string, appUrl: string): Manifest {
    PodM(Key(PodKind, cr.ns, cr.name + "-app"), Labels(cr, "app"), AppPodSpec(cr, keycloakUrl, appUrl))
  }

  function AppService(cr: Horreum, routes: bool): Manifest {
    ServiceM(Key(ServiceKind, cr.ns, cr.name), ServiceType(cr.spec.serviceType, routes),
             [ServicePort(cr.spec.route, 8080, 8443)], Labels(cr, "app"))
  }

  function AppRoute(cr: Horreum): RouteTask {
    RouteTaskFor(cr, cr.spec.route, "", true)
  }

  // controllers/keycloak.go

  function KeycloakCertSecret(cr: Horreum): string {
    if cr.spec.keycloak.route.kind == "passthrough" then cr.spec.keycloak.route.tls else cr.name + "-keycloak-certs"
  }

  function KeycloakEnv(cr: Horreum, host: string): seq<EnvVar> {
    var db := cr.spec.keycloak.database;
    [ FromSecret("KEYCLOAK_ADMIN", KeycloakAdminSecret(cr), USERNAME),
      FromSecret("KEYCLOAK_ADMIN_PASSWORD", KeycloakAdminSecret(cr), PASSWORD),
      Value("DB_ADDR", WithDefault(db.host, DbDefaultHost(cr))),
      Value("DB_PORT", WithDefaultInt(db.port, 5432)),
      Value("DB_DATABASE", WithDefault(db.name, "keycloak")),
      Value("KC_HTTPS_CERTIFICATE_FILE", "/etc/x509/https/tls.crt"),
      Value("KC_HTTPS_CERTIFICATE_KEY_FILE", "/etc/x509/https/tls.key"),
      Value("KC_HOSTNAME", host),
      FromSecret("KC_DB_USERNAME", KeycloakDbSecret(cr), USERNAME),
      FromSecret("KC_DB_PASSWORD", KeycloakDbSecret(cr), PASSWORD)]
  }

  function KeycloakPodSpec(cr: Horreum, host: string): PodSpec {
    PodSpec(None, None, [],
            [Container("keycloak", WithDefault(cr.spec.keycloak.image, "quay.io/hyperfoil/horreum-keycloak:latest"),
                       KeycloakEnv(cr, host), [8443], None, [Mount("certs", "/etc/x509/https", "")])],
            [Volume("certs", SecretSource(KeycloakCertSecret(cr)))])
  }

  /* None when the URL does not parse. */
  function KeycloakPod(env: Env, cr: Horreum, url: string): Option<Manifest> {
    match env.parseHost(url)
    case None => None
    case Some(host) =>
      Some(PodM(Key(PodKind, cr.ns, cr.name + "-keycloak"), Labels(cr, "keycloak"), KeycloakPodSpec(cr, host)))
  }

  function KeycloakService(cr: Horreum, routes: bool): Manifest {
    ServiceM(Key(ServiceKind, cr.ns, cr.name + "-keycloak"), ServiceType(cr.spec.keycloak.serviceType, routes),
             [Port("https", 443, 8443)], Labels(cr, "keycloak"))
  }

  function KeycloakRoute(cr: Horreum): RouteTask {
    RouteTaskFor(cr, cr.spec.keycloak.route, "-keycloak", ServesTls(cr.spec.keycloak.route.kind))
  }

  // controllers/postgres.go

  /* The scripts depend on the spec only through the name of Keycloak's database. */
  function PostgresConfigMap(cr: Horreum): Manifest {
    ConfigMapM(Key(ConfigMapKind, cr.ns, cr.name + "-postgresql-start"),
               map["init_keycloak.sh" := WithDefault(cr.spec.keycloak.database.name, "keycloak"), "init_app.sh" := ""],
               map[])
  }

  predicate IsUpstreamPostgres(image: string) {
    "docker.io/library/postgres" <= image || "postgres" <= image
  }

  function PostgresUser(cr: Horreum, image: string): int {
    if cr.spec.postgres.user.Some? then cr.spec.postgres.user.value
    else if IsUpstreamPostgres(image) then 999
    else 26
  }

  function PostgresEnv(cr: Horreum, image: string): seq<EnvVar> {
    var db := WithDefault(cr.spec.database.name, "horreum");
    [ FromSecret("KEYCLOAK_USER", KeycloakDbSecret(cr), USERNAME),
      FromSecret("KEYCLOAK_PASSWORD", KeycloakDbSecret(cr), PASSWORD),
      FromSecret("APP_USER", AppUserSecret(cr), USERNAME),
      FromSecret("APP_PASSWORD", AppUserSecret(cr), PASSWORD),
      FromSecret("APP_DB_SECRET", AppUserSecret(cr), DBSECRET)] +
    (if IsUpstreamPostgres(image) then
       [ Value("POSTGRES_DB", db), Value("PGDATABASE", db), Value("PGDATA", "/var/lib/pgsql/data"),
         FromSecret("PGUSER", DbAdminSecret(cr), USERNAME),
         FromSecret("POSTGRES_USER", DbAdminSecret(cr), USERNAME),
         FromSecret("POSTGRESQL_USER", DbAdminSecret(cr), USERNAME),
         FromSecret("POSTGRES_PASSWORD", DbAdminSecret(cr), PASSWORD)]
     else
       [ Value("POSTGRESQL_DATABASE", db),
         FromSecret("POSTGRESQL_USER", DbAdminSecret(cr), USERNAME),
         FromSecret("POSTGRESQL_PASSWORD", DbAdminSecret(cr), PASSWORD)])
  }

  const DATA := Mount("db-volume", "/var/lib/pgsql/data", "")

  function PostgresInit(image: string, redHat: bool): seq<Container> {
    if redHat then [] else [Container("init", image, [], [], Some(0), [DATA])]
  }

  function InitDir(image: string): string {
    if IsUpstreamPostgres(image) then "/docker-entrypoint-initdb.d/" else "/opt/app-root/src/postgresql-start"
  }

  function PostgresVolumes(cr: Horreum): seq<Volume> {
    [ Volume("db-volume", if cr.spec.postgres.claim != "" then Claim(cr.spec.postgres.claim) else EmptyDir),
      Volume("postgresql-start", ConfigMapSource(cr.name + "-postgresql-start"))]
  }

  function PostgresPodSpec(cr: Horreum, redHat: bool): PodSpec {
    var image := DbImage(cr, redHat);
    var user := PostgresUser(cr, image);
    PodSpec(None, Some(user), PostgresInit(image, redHat),
            [Container("postgres", image, PostgresEnv(cr, image), [5432], Some(user),
                       [DATA, Mount("postgresql-start", InitDir(image), "")])],
            PostgresVolumes(cr))
  }

  function PostgresPod(cr: Horreum, redHat: bool): Manifest {
    PodM(Key(PodKind, cr.ns, cr.name + "-db"), Labels(cr, "db"), PostgresPodSpec(cr, redHat))
  }

  function PostgresService(cr: Horreum): Manifest {
    ServiceM(Key(ServiceKind, cr.ns, cr.name + "-db"), "ClusterIP", [Port("postgres", 5432, 5432)], Labels(cr, "db"))
  }

  // controllers/horreum_controller.go

  /* The script depends on the spec only through the two addresses in it. */
  function UploadConfig(cr: Horreum): Manifest {
    ConfigMapM(Key(ConfigMapKind, cr.ns, cr.name + "-hyperfoil-upload"),
               map["50-upload-to-horreum" := KeycloakInternalUrl(cr) + " " + AppInternalUrl(cr)], map[])
  }

  function SecretKey(cr: Horreum, name: string): Key {
    Key(SecretKind, cr.ns, name)
  }

  /* Nothing that is wanted depends on the status. */
  function PlanOf(env: Env, cr: Horreum): Plan {
    PlanFor(env, cr.(status := NO_STATUS))
  }

  function PlanFor(env: Env, cr: Horreum): Plan {
    Plan(
      owner := Owner(cr.ns, cr.name),
      nodeHost := cr.spec.nodeHost,
      hostMissing := cr.spec.nodeHost == "" &&
        (IsNodePort(cr.spec.serviceType, env.routes) || IsNodePort(cr.spec.keycloak.serviceType, env.routes)),
      adminSecret := HorreumAdminSecret(cr),
      routes := env.routes,
      caKey := SecretKey(cr, cr.name + "-ca-certs"),
      trustKey := Key(ConfigMapKind, cr.ns, SERVICE_CA),
      appCert := CertTask(SecretKey(cr, cr.name + "-app-certs"), cr.name, 1000),
      keycloakCert := CertTask(SecretKey(cr, cr.name + "-keycloak-certs"), cr.name + "-keycloak", 2000),
      dbAdmin := SecretTask(SecretKey(cr, DbAdminSecret(cr)), false),
      appUser := SecretTask(SecretKey(cr, AppUserSecret(cr)), true),
      keycloakAdmin := SecretTask(SecretKey(cr, KeycloakAdminSecret(cr)), false),
      keycloakDb := SecretTask(SecretKey(cr, KeycloakDbSecret(cr)), false),
      admin := SecretTask(SecretKey(cr, HorreumAdminSecret(cr)), false),
      postgres := cr.spec.postgres.enabled != Some(false),
      postgresMap := PostgresConfigMap(cr),
      postgresPod := PostgresPod(cr, env.redHat),
      postgresService := PostgresService(cr),
      keycloakUri := cr.spec.keycloak.external.publicUri,
      keycloakService := KeycloakService(cr, env.routes),
      keycloakAccess := AccessOf(cr.spec.keycloak.serviceType, env.routes),
      keycloakRoute := KeycloakRoute(cr),
      keycloakPodKey := Key(PodKind, cr.ns, cr.name + "-keycloak"),
      keycloakPod := url => KeycloakPod(env, cr, url),
      appService := AppService(cr, env.routes),
      appAccess := AccessOf(cr.spec.serviceType, env.routes),
      appRoute := AppRoute(cr),
      appPodKey := Key(PodKind, cr.ns, cr.name + "-app"),
      appPod := (keycloakUrl, url) => AppPod(cr, keycloakUrl, url),
      upload := UploadConfig(cr))
  }
}
