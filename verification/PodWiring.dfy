/**
  How the pods of one resource are wired: the addresses they find one another at,
  the files they are pointed to, the volumes behind their mounts, and the users
  they run as (controllers/app.go, keycloak.go, postgres.go, defaults.go).
 */
module PodWiring {
  import opened Wrappers
  import opened Resources
  import opened HorreumApi
  import opened Plans
  import opened Steps
  import opened Builders
  import opened Numerals
  import opened Addressing
  import opened Credentials

  /* A container finds this text at the variable. */
  predicate Finds(env: seq<EnvVar>, name: string, text: string) {
    Lookup(env, name).Some? && Lookup(env, name).value.Value? && Lookup(env, name).value.value == text
  }

  lemma FindsAt(env: seq<EnvVar>, i: nat)
    requires Distinct(env) && i < |env| && env[i].Value?
    ensures Finds(env, env[i].name, env[i].value)
  {
    hide Lookup, Distinct;
    LookupFinds(env, i);
  }

  // The databases

  /* A port in digits; a negative one, which no server has, with its sign. */
  predicate IsPort(text: string, port: int) {
    if port >= 0 then IsNumeral(text, port) else text != "" && text[0] == '-' && IsNumeral(text[1..], -port)
  }

  lemma DigitsArePort(n: int)
    ensures IsPort(Digits(n), n)
  {
    hide IsNumeral, Decimal;
    if n < 0 {
      DecimalIsNumeral(-n);
      assert Digits(n)[1..] == Decimal(-n);
    } else {
      DecimalIsNumeral(n);
    }
  }

  /* Host, port and name of a database: those that are given, or else those of the
     resource's own postgres. */
  predicate IsDatabase(cr: Horreum, db: DatabaseSpec, own: string, host: string, port: string, name: string) {
    var service := PostgresService(cr);
    && host == (if db.host != "" then db.host else service.key.name + "." + service.key.ns + ".svc")
    && IsPort(port, if db.port != 0 then db.port else service.ports[0].port)
    && name == (if db.name != "" then db.name else own)
  }

  lemma GivenDatabase(cr: Horreum, db: DatabaseSpec, own: string)
    ensures IsDatabase(
      cr, db, own, WithDefault(db.host, DbDefaultHost(cr)), WithDefaultInt(db.port, 5432), WithDefault(db.name, own))
  {
    hide IsPort, Labels, Digits;
    DigitsArePort(db.port);
    DigitsArePort(5432);
    assert DbDefaultHost(cr) == cr.name + "-db" + "." + cr.ns + ".svc";
  }

  lemma AppValues(cr: Horreum, u: string, v: string)
    ensures var env := AppEnv(cr, u, v);
      && Finds(env, "QUARKUS_DATASOURCE_JDBC_URL", DbUrl(cr, cr.spec.database, "horreum"))
      && Finds(env, "QUARKUS_DATASOURCE_MIGRATION_JDBC_URL", DbUrl(cr, cr.spec.database, "horreum"))
      && Finds(env, "QUARKUS_OIDC_AUTH_SERVER_URL", KeycloakInternalUrl(cr) + "/realms/horreum")
      && Finds(env, "QUARKUS_OIDC_TOKEN_ISSUER", u + "/realms/horreum")
      && Finds(env, "HORREUM_URL", v)
      && Finds(env, "HORREUM_INTERNAL_URL", AppInternalUrl(cr))
      && Finds(env, "HORREUM_KEYCLOAK_URL", u + "/")
  {
    hide DbUrl, AppUserSecret, DbAdminSecret, KeycloakInternalUrl, AppInternalUrl, ServesTls, Distinct, Finds;
    var env := AppEnv(cr, u, v);
    AppNamesDistinct(cr, u, v);
    FindsAt(env, 0);
    FindsAt(env, 3);
    FindsAt(env, 7);
    FindsAt(env, 8);
    FindsAt(env, 9);
    FindsAt(env, 10);
    FindsAt(env, 11);
  }

  lemma PostgresValues(cr: Horreum, image: string)
    ensures var env, name := PostgresEnv(cr, image), WithDefault(cr.spec.database.name, "horreum");
      if IsUpstream(image) then
        Finds(env, "POSTGRES_DB", name) && Finds(env, "PGDATABASE", name) && Finds(env, "PGDATA", DATA.path)
      else Finds(env, "POSTGRESQL_DATABASE", name)
  {
    hide KeycloakDbSecret, AppUserSecret, DbAdminSecret, WithDefault, IsUpstreamPostgres, IsUpstream, Distinct, Finds;
    PostgresNamesDistinct(cr, image);
    SecretNames(cr);
    var env := PostgresEnv(cr, image);
    FindsAt(env, 5);
    if IsUpstream(image) {
      FindsAt(env, 6);
      FindsAt(env, 7);
    }
  }

  lemma KeycloakValues(cr: Horreum, host: string)
    ensures var env, db := KeycloakEnv(cr, host), cr.spec.keycloak.database;
      && Finds(env, "DB_ADDR", WithDefault(db.host, DbDefaultHost(cr)))
      && Finds(env, "DB_PORT", WithDefaultInt(db.port, 5432))
      && Finds(env, "DB_DATABASE", WithDefault(db.name, "keycloak"))
      && Finds(env, "KC_HTTPS_CERTIFICATE_FILE", "/etc/x509/https/tls.crt")
      && Finds(env, "KC_HTTPS_CERTIFICATE_KEY_FILE", "/etc/x509/https/tls.key")
      && Finds(env, "KC_HOSTNAME", host)
  {
    hide KeycloakAdminSecret, KeycloakDbSecret, WithDefault, WithDefaultInt, DbDefaultHost, Distinct, Finds;
    var env := KeycloakEnv(cr, host);
    KeycloakNamesDistinct(cr, host);
    FindsAt(env, 2);
    FindsAt(env, 3);
    FindsAt(env, 4);
    FindsAt(env, 5);
    FindsAt(env, 6);
    FindsAt(env, 7);
  }

  /* What a pod's only container, and its only init container, have as environment. */
  function MainEnv(pod: Manifest): seq<EnvVar> {
    if pod.PodM? && |pod.spec.containers| == 1 then pod.spec.containers[0].env else []
  }

  function InitEnv(pod: Manifest): seq<EnvVar> {
    if pod.PodM? && |pod.spec.initContainers| == 1 then pod.spec.initContainers[0].env else []
  }

  /** The application is pointed, for work and for migration, to the database that
      is given, or else to the service of the resource's own postgres, which makes
      a database of the same name. */
  lemma AppFindsDatabase(env: Env, cr: Horreum, u: string, v: string)
    ensures var main, db := MainEnv(AppPod(cr, u, v)), MainEnv(PostgresPod(cr, env.redHat));
      exists host: string, port: string, name: string ::
        && IsDatabase(cr, cr.spec.database, "horreum", host, port, name)
        && Finds(main, "QUARKUS_DATASOURCE_JDBC_URL", "jdbc:postgresql://" + host + ":" + port + "/" + name)
        && Finds(main, "QUARKUS_DATASOURCE_MIGRATION_JDBC_URL", "jdbc:postgresql://" + host + ":" + port + "/" + name)
        && if IsUpstream(DbImage(cr, env.redHat)) then
             Finds(db, "POSTGRES_DB", name) && Finds(db, "PGDATABASE", name)
           else Finds(db, "POSTGRESQL_DATABASE", name)
  {
    hide IsDatabase, Finds, AppEnv, PostgresEnv, WithDefault, WithDefaultInt, DbDefaultHost, IsUpstream, DbImage;
    hide Labels;
    hide AppInitEnv, AppMounts, AppVolumes, AppImage, PostgresVolumes, PostgresInit, PostgresUser, InitDir;
    GivenDatabase(cr, cr.spec.database, "horreum");
    AppValues(cr, u, v);
    PostgresValues(cr, DbImage(cr, env.redHat));
  }

  /** Keycloak is pointed to the database that is given for it, or else to the
      resource's own postgres, whose init script makes a database of the same name. */
  lemma KeycloakFindsDatabase(env: Env, cr: Horreum, url: string)
    requires KeycloakPod(env, cr, url).Some?
    ensures var kc := MainEnv(KeycloakPod(env, cr, url).value);
      exists host: string, port: string, name: string ::
        && IsDatabase(cr, cr.spec.keycloak.database, "keycloak", host, port, name)
        && Finds(kc, "DB_ADDR", host) && Finds(kc, "DB_PORT", port) && Finds(kc, "DB_DATABASE", name)
        && PostgresConfigMap(cr).texts["init_keycloak.sh"] == name
  {
    hide IsDatabase, Finds, KeycloakEnv, WithDefault, WithDefaultInt, DbDefaultHost, Labels, KeycloakCertSecret;
    GivenDatabase(cr, cr.spec.keycloak.database, "keycloak");
    KeycloakValues(cr, env.parseHost(url).value);
  }

  // URLs

  /* Where Keycloak is reached from inside the cluster. */
  predicate IsKeycloakInside(cr: Horreum, service: Key, url: string) {
    var external := cr.spec.keycloak.external;
    && (external.internalUri != "" ==> url == external.internalUri)
    && (external.internalUri == "" && external.publicUri != "" ==> url == external.publicUri)
    && (external.internalUri == "" && external.publicUri == "" ==>
          url == "https://" + service.name + "." + service.ns + ".svc")
  }

  lemma KeycloakInside(env: Env, cr: Horreum)
    ensures IsKeycloakInside(cr, KeycloakService(cr, env.routes).key, KeycloakInternalUrl(cr))
  {
    hide ServiceType, Labels;
    assert "https://" + InternalHost(cr, "-keycloak") == "https://" + (cr.name + "-keycloak") + "." + cr.ns + ".svc";
  }

  lemma InitValues(cr: Horreum, v: string)
    ensures var env := AppInitEnv(cr, v);
      Finds(env, "KC_URL", KeycloakInternalUrl(cr)) && Finds(env, "APP_URL", v) &&
      Finds(env, "CA_CERT_ARG", CaCertArg(cr))
  {
    hide KeycloakAdminSecret, HorreumAdminSecret, KeycloakInternalUrl, CaCertArg, Distinct, Finds, AppEnv;
    var env := AppInitEnv(cr, v);
    AppNamesDistinct(cr, "", v);
    FindsAt(env, 4);
    FindsAt(env, 5);
    FindsAt(env, 6);
  }

  lemma AppEnvironments(cr: Horreum, u: string, v: string)
    ensures MainEnv(AppPod(cr, u, v)) == AppEnv(cr, u, v) && InitEnv(AppPod(cr, u, v)) == AppInitEnv(cr, v)
  {
    hide AppEnv, AppInitEnv, AppMounts, AppVolumes, AppImage, Labels;
  }

  /* These two URLs lead to Keycloak and to the application inside the cluster. */
  predicate AreInside(env: Env, cr: Horreum, keycloak: string, app: string) {
    var own := AppService(cr, env.routes).key;
    && IsKeycloakInside(cr, KeycloakService(cr, env.routes).key, keycloak)
    && (app == "http://" + own.name + "." + own.ns + ".svc" || app == "https://" + own.name + "." + own.ns + ".svc")
  }

  lemma InsideUrls(env: Env, cr: Horreum)
    ensures AreInside(env, cr, KeycloakInternalUrl(cr), AppInternalUrl(cr))
    ensures UploadConfig(cr).ConfigMapM? && "50-upload-to-horreum" in UploadConfig(cr).texts
    ensures UploadConfig(cr).texts["50-upload-to-horreum"] == KeycloakInternalUrl(cr) + " " + AppInternalUrl(cr)
  {
    hide IsKeycloakInside, KeycloakInternalUrl, AppInternalUrl, ServiceType, ServicePort, Labels;
    KeycloakInside(env, cr);
    OwnUrl(cr);
  }

  /** Tokens are issued under Keycloak's public URL, and the application and its
      init container know the application's. */
  lemma AppFindsPublicUrls(cr: Horreum, u: string, v: string)
    ensures var main, init := MainEnv(AppPod(cr, u, v)), InitEnv(AppPod(cr, u, v));
      && Finds(main, "HORREUM_URL", v) && Finds(init, "APP_URL", v)
      && Finds(main, "QUARKUS_OIDC_TOKEN_ISSUER", u + "/realms/horreum") && Finds(main, "HORREUM_KEYCLOAK_URL", u + "/")
  {
    hide Finds, AppEnv, AppInitEnv, AppPod, MainEnv, InitEnv, KeycloakInternalUrl, AppInternalUrl;
    AppEnvironments(cr, u, v);
    AppValues(cr, u, v);
    InitValues(cr, v);
  }

  /** The application, its init container and the upload script use one internal
      URL of Keycloak, and the application and that script one of the application,
      which leads to its service. */
  lemma AppFindsInternalUrls(env: Env, cr: Horreum, u: string, v: string)
    ensures UploadConfig(cr).ConfigMapM? && "50-upload-to-horreum" in UploadConfig(cr).texts
    ensures var main, init := MainEnv(AppPod(cr, u, v)), InitEnv(AppPod(cr, u, v));
      exists keycloak: string, app: string ::
        && AreInside(env, cr, keycloak, app)
        && Finds(main, "QUARKUS_OIDC_AUTH_SERVER_URL", keycloak + "/realms/horreum")
        && Finds(init, "KC_URL", keycloak) && Finds(main, "HORREUM_INTERNAL_URL", app)
        && UploadConfig(cr).texts["50-upload-to-horreum"] == keycloak + " " + app
  {
    hide Finds, AppEnv, AppInitEnv, AppPod, MainEnv, InitEnv, KeycloakInternalUrl, AppInternalUrl, AreInside;
    hide UploadConfig;
    AppEnvironments(cr, u, v);
    AppValues(cr, u, v);
    InitValues(cr, v);
    InsideUrls(env, cr);
  }

  lemma OwnUrl(cr: Horreum)
    ensures
      || AppInternalUrl(cr) == "http://" + cr.name + "." + cr.ns + ".svc"
      || AppInternalUrl(cr) == "https://" + cr.name + "." + cr.ns + ".svc"
  {
    assert cr.name + "" == cr.name;
    assert AppInternalUrl(cr) == InnerProtocol(cr.spec.route) + cr.name + "." + cr.ns + ".svc";
  }

  // Files and volumes

  /* At this path the container finds what the source holds, or one file of it. */
  predicate FindsFiles(spec: PodSpec, c: Container, path: string, source: Source, file: string) {
    exists i, j | 0 <= i < |c.mounts| && 0 <= j < |spec.volumes| ::
      && c.mounts[i] == Mount(spec.volumes[j].name, path, file)
      && spec.volumes[j].source == source
  }

  /* No volume has the name of another one, and every mount that of a volume. */
  predicate Mountable(spec: PodSpec) {
    && (forall i, j | 0 <= i < j < |spec.volumes| :: spec.volumes[i].name != spec.volumes[j].name)
    && (forall c, i | c in spec.initContainers + spec.containers && 0 <= i < |c.mounts| ::
          exists j | 0 <= j < |spec.volumes| :: spec.volumes[j].name == c.mounts[i].volume)
  }

  lemma AppMountable(cr: Horreum, u: string, v: string)
    ensures Mountable(AppPodSpec(cr, u, v))
  {
    hide AppEnv, AppInitEnv, AppImage, AppCertSecret, ServesTls;
    var spec := AppPodSpec(cr, u, v);
    var volumes := AppVolumes(cr);
    assert volumes[0].name == "imports" && volumes[1].name == "service-ca";
    assert ServesTls(cr.spec.route.kind) ==> volumes[2].name == "certs";
  }

  lemma KeycloakMountable(cr: Horreum, host: string)
    ensures Mountable(KeycloakPodSpec(cr, host))
  {
    hide KeycloakEnv, WithDefault, KeycloakCertSecret;
    assert KeycloakPodSpec(cr, host).volumes[0].name == "certs";
  }

  lemma PostgresMountable(cr: Horreum, redHat: bool)
    ensures Mountable(PostgresPodSpec(cr, redHat))
  {
    hide PostgresEnv, WithDefault, DbImage, PostgresUser, InitDir;
    var volumes := PostgresPodSpec(cr, redHat).volumes;
    assert volumes[0].name == "db-volume" && volumes[1].name == "postgresql-start";
  }

  /* Certificate and key in the directory at which a secret is mounted. */
  predicate FindsCertificate(
    spec: PodSpec, c: Container, directory: string, secret: string, certificate: string, key: string)
  {
    && FindsFiles(spec, c, directory, SecretSource(secret), "")
    && Finds(c.env, certificate, directory + "/tls.crt") && Finds(c.env, key, directory + "/tls.key")
  }

  lemma AppTlsValues(cr: Horreum, u: string, v: string)
    ensures var env := AppEnv(cr, u, v);
      if ServesTls(cr.spec.route.kind) then
        Finds(env, "QUARKUS_HTTP_SSL_CERTIFICATE_FILE", "/opt/certs/tls.crt") &&
        Finds(env, "QUARKUS_HTTP_SSL_CERTIFICATE_KEY_FILE", "/opt/certs/tls.key")
      else Lookup(env, "QUARKUS_HTTP_SSL_CERTIFICATE_FILE") == None
  {
    hide DbUrl, AppUserSecret, DbAdminSecret, KeycloakInternalUrl, AppInternalUrl, ServesTls, Distinct, Finds, Lookup;
    var env := AppEnv(cr, u, v);
    AppNamesDistinct(cr, u, v);
    if ServesTls(cr.spec.route.kind) {
      FindsAt(env, |env| - 2);
      FindsAt(env, |env| - 1);
    } else {
      LookupMisses(env, "QUARKUS_HTTP_SSL_CERTIFICATE_FILE");
    }
  }

  /** The application is pointed to certificate and key in the directory at which
      the certificate's secret is mounted if and only if its route type serves TLS;
      the secret is the operator's or the platform's, for passthrough the given one. */
  lemma AppFindsCertificate(cr: Horreum, u: string, v: string)
    ensures var spec := AppPodSpec(cr, u, v);
      var main := spec.containers[0];
      var secret := if cr.spec.route.kind == "passthrough" then cr.spec.route.tls else cr.name + "-app-certs";
      if cr.spec.route.kind in {"passthrough", "reencrypt", ""} then
        exists directory: string ::
          FindsCertificate(spec, main, directory, secret, "QUARKUS_HTTP_SSL_CERTIFICATE_FILE",
                           "QUARKUS_HTTP_SSL_CERTIFICATE_KEY_FILE")
      else
        Lookup(main.env, "QUARKUS_HTTP_SSL_CERTIFICATE_FILE") == None &&
        forall volume | volume in spec.volumes :: !volume.source.SecretSource?
  {
    hide AppEnv, AppInitEnv, AppImage, Finds, Lookup;
    var spec := AppPodSpec(cr, u, v);
    AppTlsValues(cr, u, v);
    if ServesTls(cr.spec.route.kind) {
      assert spec.containers[0].mounts[1] == Mount(spec.volumes[2].name, "/opt/certs", "");
      assert "/opt/certs" + "/tls.crt" == "/opt/certs/tls.crt" && "/opt/certs" + "/tls.key" == "/opt/certs/tls.key";
      assert FindsCertificate(spec, spec.containers[0], "/opt/certs", AppCertSecret(cr),
                              "QUARKUS_HTTP_SSL_CERTIFICATE_FILE", "QUARKUS_HTTP_SSL_CERTIFICATE_KEY_FILE");
    }
  }

  lemma KeycloakVolumesAndMounts(cr: Horreum, host: string)
    ensures var spec, route := KeycloakPodSpec(cr, host), cr.spec.keycloak.route;
      && |spec.containers| == |spec.volumes| == |spec.containers[0].mounts| == 1
      && spec.containers[0].env == KeycloakEnv(cr, host)
      && spec.volumes[0].source ==
           SecretSource(if route.kind == "passthrough" then route.tls else cr.name + "-keycloak-certs")
      && spec.containers[0].mounts[0] == Mount(spec.volumes[0].name, "/etc/x509/https", "")
  {
    hide KeycloakEnv, WithDefault;
  }

  lemma CertificateFiles(env: seq<EnvVar>)
    requires Finds(env, "KC_HTTPS_CERTIFICATE_FILE", "/etc/x509/https/tls.crt")
    requires Finds(env, "KC_HTTPS_CERTIFICATE_KEY_FILE", "/etc/x509/https/tls.key")
    ensures Finds(env, "KC_HTTPS_CERTIFICATE_FILE", "/etc/x509/https" + "/tls.crt")
    ensures Finds(env, "KC_HTTPS_CERTIFICATE_KEY_FILE", "/etc/x509/https" + "/tls.key")
  {
    hide Finds;
    assert "/etc/x509/https" + "/tls.crt" == "/etc/x509/https/tls.crt";
    assert "/etc/x509/https" + "/tls.key" == "/etc/x509/https/tls.key";
  }

  /** Keycloak is pointed to certificate and key in the directory at which the
      certificate's secret is mounted, and to the host of its public URL. */
  lemma KeycloakFindsCertificate(cr: Horreum, host: string)
    ensures var spec, route := KeycloakPodSpec(cr, host), cr.spec.keycloak.route;
      var secret := if route.kind == "passthrough" then route.tls else cr.name + "-keycloak-certs";
      && |spec.containers| == 1
      && Finds(spec.containers[0].env, "KC_HOSTNAME", host)
      && exists directory: string ::
           FindsCertificate(spec, spec.containers[0], directory, secret, "KC_HTTPS_CERTIFICATE_FILE",
                            "KC_HTTPS_CERTIFICATE_KEY_FILE")
  {
    hide KeycloakPodSpec, KeycloakEnv, Finds;
    var spec, route := KeycloakPodSpec(cr, host), cr.spec.keycloak.route;
    var secret := if route.kind == "passthrough" then route.tls else cr.name + "-keycloak-certs";
    KeycloakVolumesAndMounts(cr, host);
    KeycloakValues(cr, host);
    CertificateFiles(spec.containers[0].env);
    assert FindsFiles(spec, spec.containers[0], "/etc/x509/https", SecretSource(secret), "");
    assert FindsCertificate(spec, spec.containers[0], "/etc/x509/https", secret, "KC_HTTPS_CERTIFICATE_FILE",
                            "KC_HTTPS_CERTIFICATE_KEY_FILE");
  }

  lemma AppVolumesAndMounts(cr: Horreum, u: string, v: string)
    ensures var spec := AppPodSpec(cr, u, v);
      && |spec.containers| == |spec.initContainers| == 1
      && |spec.volumes| >= 2 && |spec.containers[0].mounts| >= 1 && |spec.initContainers[0].mounts| == 2
      && spec.volumes[0].source == EmptyDir && spec.volumes[1].source == ConfigMapSource("service-ca.crt")
      && spec.containers[0].mounts[0] == Mount(spec.volumes[0].name, "/etc/horreum/imports", "")
      && spec.initContainers[0].mounts[0] == Mount(spec.volumes[0].name, "/etc/horreum/imports", "")
      && spec.initContainers[0].mounts[1] ==
           Mount(spec.volumes[1].name, "/etc/ssl/certs/service-ca.crt", "service-ca.crt")
  {
    hide AppEnv, AppInitEnv, AppImage, AppCertSecret, ServesTls;
  }

  lemma InitArgument(cr: Horreum, path: string)
    requires path == "/etc/ssl/certs/service-ca.crt"
    ensures CaCertArg(cr) == if cr.spec.route.kind in {"reencrypt", ""} then "--cacert " + path else ""
  {
    assert "--cacert " + path == "--cacert /etc/ssl/certs/service-ca.crt";
  }

  /** The init container finds the bundle of trusted certificates, under the name
      that the bundle's own entry has, where it is told to look for it; it is told
      so if and only if the application serves a certificate of the cluster. */
  lemma InitFindsBundle(cr: Horreum, p: Plan, authority: Authority, u: string, v: string)
    ensures var spec := AppPodSpec(cr, u, v);
      var init := spec.initContainers[0];
      && TrustBundle(p, authority).binary.Keys == {"service-ca.crt"}
      && exists path: string ::
           && FindsFiles(spec, init, path, ConfigMapSource("service-ca.crt"), "service-ca.crt")
           && Finds(init.env, "CA_CERT_ARG", if cr.spec.route.kind in {"reencrypt", ""} then "--cacert " + path else "")
  {
    hide AppEnv, AppInitEnv, AppImage, Finds, AppCertSecret, CaCertArg, AppVolumes, AppMounts;
    var spec := AppPodSpec(cr, u, v);
    var path := "/etc/ssl/certs/service-ca.crt";
    InitValues(cr, v);
    InitArgument(cr, path);
    AppVolumesAndMounts(cr, u, v);
    assert FindsFiles(spec, spec.initContainers[0], path, ConfigMapSource("service-ca.crt"), "service-ca.crt");
  }

  /** What the init container leaves among the imports the application finds at the same path. */
  lemma ImportsAreShared(cr: Horreum, u: string, v: string)
    ensures var spec := AppPodSpec(cr, u, v);
      exists path: string ::
        FindsFiles(spec, spec.initContainers[0], path, EmptyDir, "") &&
        FindsFiles(spec, spec.containers[0], path, EmptyDir, "")
  {
    hide AppPodSpec;
    var spec := AppPodSpec(cr, u, v);
    AppVolumesAndMounts(cr, u, v);
    assert FindsFiles(spec, spec.initContainers[0], "/etc/horreum/imports", EmptyDir, "");
    assert FindsFiles(spec, spec.containers[0], "/etc/horreum/imports", EmptyDir, "");
  }

  // Postgres

  /* All containers find what the source holds in one directory, where the data are kept. */
  predicate FindsData(spec: PodSpec, directory: string, source: Source) {
    && (forall c | c in spec.initContainers + spec.containers :: FindsFiles(spec, c, directory, source, ""))
    && forall c | c in spec.containers && IsUpstream(c.image) :: Finds(c.env, "PGDATA", directory)
  }

  /** Postgres and its init container find the claim that is given, or else a
      volume that goes with the pod, at the data directory. */
  lemma PostgresFindsData(cr: Horreum, redHat: bool)
    ensures var spec := PostgresPodSpec(cr, redHat);
      var source := if cr.spec.postgres.claim != "" then Claim(cr.spec.postgres.claim) else EmptyDir;
      exists directory: string :: FindsData(spec, directory, source)
  {
    hide PostgresEnv, WithDefault, DbImage, PostgresUser, Finds, InitDir, IsUpstream;
    var spec := PostgresPodSpec(cr, redHat);
    var source := if cr.spec.postgres.claim != "" then Claim(cr.spec.postgres.claim) else EmptyDir;
    PostgresValues(cr, DbImage(cr, redHat));
    assert spec.containers[0].mounts[0] == Mount(spec.volumes[0].name, DATA.path, "");
    forall c | c in spec.initContainers + spec.containers ensures FindsFiles(spec, c, DATA.path, source, "") {
      assert c.mounts[0] == Mount(spec.volumes[0].name, DATA.path, "");
    }
    assert FindsData(spec, DATA.path, source);
  }

  /** Postgres finds the scripts of the operator's config map where its image looks for them. */
  lemma PostgresFindsScripts(cr: Horreum, redHat: bool)
    ensures var spec := PostgresPodSpec(cr, redHat);
      var path :=
        if IsUpstream(spec.containers[0].image) then "/docker-entrypoint-initdb.d/"
        else "/opt/app-root/src/postgresql-start";
      FindsFiles(spec, spec.containers[0], path, ConfigMapSource(PostgresConfigMap(cr).key.name), "")
  {
    hide PostgresEnv, WithDefault, DbImage, PostgresUser, PostgresInit, IsUpstream, IsUpstreamPostgres;
    var spec := PostgresPodSpec(cr, redHat);
    SecretNames(cr);
    assert spec.containers[0].mounts[1] == Mount(spec.volumes[1].name, InitDir(DbImage(cr, redHat)), "");
  }

  /** Postgres runs as the user that is given, or else as that of its image, and
      its volume belongs to that user's group; only the init container, which there
      is unless Red Hat images are used, runs as root, to hand the directory over. */
  lemma PostgresRunsAs(cr: Horreum, redHat: bool)
    ensures var spec := PostgresPodSpec(cr, redHat);
      var main := spec.containers[0];
      && spec.fsGroup.Some? && main.runAsUser == spec.fsGroup
      && (cr.spec.postgres.user.Some? ==> spec.fsGroup == cr.spec.postgres.user)
      && (cr.spec.postgres.user.None? ==> spec.fsGroup == Some(if IsUpstream(main.image) then 999 else 26))
      && (redHat <==> spec.initContainers == [])
      && forall init | init in spec.initContainers :: init.runAsUser == Some(0) && init.image == main.image
  {
    hide PostgresEnv, WithDefault, DbImage, InitDir;
  }

  // Images and ports

  predicate IsImage(image: string, given: string, own: string) {
    image == if given != "" then given else own
  }

  /* A container of this name with the image that is given, or else its own. */
  predicate IsContainer(c: Container, name: string, given: string, own: string) {
    c.name == name && IsImage(c.image, given, own)
  }

  /** All containers, under the names they have in the source, run the given images
      or else the default ones; but for postgres, as the user of the image. */
  lemma AppUsesImage(cr: Horreum, u: string, v: string)
    ensures var app := AppPodSpec(cr, u, v);
      && |app.containers| == |app.initContainers| == 1
      && IsContainer(app.containers[0], "horreum", cr.spec.image, "quay.io/hyperfoil/horreum:latest")
      && IsContainer(app.initContainers[0], "init", cr.spec.image, "quay.io/hyperfoil/horreum:latest")
      && app.containers[0].runAsUser.None? && app.initContainers[0].runAsUser.None? && app.fsGroup.None?
      && app.grace == Some(0)
  {
    hide AppEnv, AppInitEnv, AppMounts, AppVolumes;
  }

  lemma KeycloakUsesImage(cr: Horreum, host: string)
    ensures var keycloak := KeycloakPodSpec(cr, host);
      && |keycloak.containers| == 1 && keycloak.initContainers == []
      && IsContainer(keycloak.containers[0], "keycloak", cr.spec.keycloak.image,
                     "quay.io/hyperfoil/horreum-keycloak:latest")
      && keycloak.containers[0].runAsUser.None? && keycloak.fsGroup.None? && keycloak.grace.None?
  {
    hide KeycloakEnv, KeycloakCertSecret;
  }

  lemma PostgresUsesImage(cr: Horreum, redHat: bool)
    ensures var db := PostgresPodSpec(cr, redHat);
      var own :=
        if redHat then "registry.redhat.io/rhel8/postgresql-12:latest" else "docker.io/library/postgres:14.4";
      && |db.containers| == 1 && IsContainer(db.containers[0], "postgres", cr.spec.postgres.image, own)
      && (forall init | init in db.initContainers :: IsContainer(init, "init", cr.spec.postgres.image, own))
      && db.grace.None?
  {
    hide PostgresEnv, PostgresUser, InitDir, PostgresVolumes;
  }

  /** Services lead to ports that the selected pods open. */
  lemma ServicesLeadToOpenPorts(env: Env, cr: Horreum, u: string)
    requires KeycloakPod(env, cr, u).Some?
    ensures var keycloak, db := KeycloakPod(env, cr, u).value, PostgresPod(cr, env.redHat);
      var service := KeycloakService(cr, env.routes);
      && Selects(service, keycloak) && Selects(PostgresService(cr), db)
      && (forall port | port in service.ports :: port.target in keycloak.spec.containers[0].ports)
      && (forall port | port in PostgresService(cr).ports :: port.target in db.spec.containers[0].ports)
  {
    hide PostgresEnv, KeycloakEnv, WithDefault, DbImage, PostgresUser, InitDir, KeycloakCertSecret, Selects;
    hide ServiceType, Labels, PostgresVolumes, PostgresInit;
    ServicesSelect(env, cr, u, "");
  }

  /** A service is of the type that is given for its component, or else one that the
      routes lead to, or without routes one with node ports; that of the
      application leads to the port without TLS exactly for routes that end TLS
      themselves or do without. */
  lemma ServicesAreOfType(env: Env, cr: Horreum)
    ensures var app, keycloak := AppService(cr, env.routes), KeycloakService(cr, env.routes);
      var own := if env.routes then "ClusterIP" else "NodePort";
      && app.serviceType == (if cr.spec.serviceType != "" then cr.spec.serviceType else own)
      && keycloak.serviceType == (if cr.spec.keycloak.serviceType != "" then cr.spec.keycloak.serviceType else own)
      && PostgresService(cr).serviceType == "ClusterIP"
      && app.ports == if cr.spec.route.kind in {"http", "edge"} then [Port("http", 80, 8080)]
                      else [Port("https", 443, 8443)]
  {
    hide Labels;
  }

  /** No service of one resource selects a pod of another one, whatever their specs. */
  lemma ServicesKeepApart(env: Env, cr: Horreum, other: Horreum, u: string, v: string, service: Manifest)
    requires cr.name != other.name
    requires service in {AppService(cr, env.routes), KeycloakService(cr, env.routes), PostgresService(cr)}
    ensures !Selects(service, AppPod(other, u, v)) && !Selects(service, PostgresPod(other, env.redHat))
    ensures KeycloakPod(env, other, u).Some? ==> !Selects(service, KeycloakPod(env, other, u).value)
  {
    hide AppPodSpec, PostgresPodSpec, KeycloakPodSpec, ServiceType, ServicePort;
    assert "app" in service.selector && service.selector["app"] == cr.name;
  }

  /** The Java options of the resource, if there are any, reach the application. */
  lemma AppFindsOptions(cr: Horreum, u: string, v: string)
    ensures var main := MainEnv(AppPod(cr, u, v));
      if cr.javaOptions.Some? then Finds(main, "JAVA_OPTIONS", cr.javaOptions.value)
      else Lookup(main, "JAVA_OPTIONS") == None
  {
    hide DbUrl, AppUserSecret, DbAdminSecret, KeycloakInternalUrl, AppInternalUrl, ServesTls, Distinct, Finds, Lookup;
    hide AppInitEnv, AppImage, AppVolumes, AppMounts, Labels;
    AppNamesDistinct(cr, u, v);
    if cr.javaOptions.Some? {
      FindsAt(AppEnv(cr, u, v), 12);
    } else {
      LookupMisses(AppEnv(cr, u, v), "JAVA_OPTIONS");
    }
  }
}
