/**
  What the variables of the pods' environments come to in the live secrets, and
  that the pods of one resource are given the same credentials for one another
  (controllers/app.go:13-62 and 138-160, keycloak.go:55-95, postgres.go:68-110).
 */
module Credentials {
  import opened Wrappers
  import opened Resources
  import opened HorreumApi
  import opened Worlds
  import opened Steps
  import opened Builders
  import opened Reconciling
  import opened Readiness
  import opened Dependencies
  import Fixpoint

  // Environments

  /* The variable of a name: the last one counts. */
  function Lookup(env: seq<EnvVar>, name: string): Option<EnvVar> {
    if env == [] then None
    else if env[|env| - 1].name == name then Some(env[|env| - 1])
    else Lookup(env[..|env| - 1], name)
  }

  /* An entry of a live secret. */
  function Entry(h: map<Key, Obj>, ns: string, secret: string, key: string): Option<Blob> {
    var k := Key(SecretKind, ns, secret);
    if k in h && h[k].Secret? && key in h[k].data then Some(h[k].data[key]) else None
  }

  /* What a container finds at a variable. */
  function Resolve(h: map<Key, Obj>, ns: string, env: seq<EnvVar>, name: string): Option<Blob> {
    match Lookup(env, name)
    case None => None
    case Some(Value(_, value)) => Some(Plain(value))
    case Some(FromSecret(_, secret, key)) => Entry(h, ns, secret, key)
  }

  predicate Distinct(env: seq<EnvVar>) {
    forall i, j | 0 <= i < j < |env| :: env[i].name != env[j].name
  }

  /** In an environment without repeated names each variable is found. */
  lemma {:induction false} LookupFinds(env: seq<EnvVar>, i: nat)
    requires Distinct(env) && i < |env|
    ensures Lookup(env, env[i].name) == Some(env[i])
  {
    if i < |env| - 1 {
      LookupFinds(env[..|env| - 1], i);
    }
  }

  lemma {:induction false} LookupMisses(env: seq<EnvVar>, name: string)
    requires forall i | 0 <= i < |env| :: env[i].name != name
    ensures Lookup(env, name) == None
  {
    if env != [] { LookupMisses(env[..|env| - 1], name); }
  }

  lemma AppNamesDistinct(cr: Horreum, u: string, v: string)
    ensures Distinct(AppEnv(cr, u, v)) && Distinct(AppInitEnv(cr, v))
  {
    hide DbUrl, AppUserSecret, DbAdminSecret, KeycloakInternalUrl, AppInternalUrl, ServesTls, CaCertArg;
    hide KeycloakAdminSecret, HorreumAdminSecret;
  }

  lemma KeycloakNamesDistinct(cr: Horreum, host: string)
    ensures Distinct(KeycloakEnv(cr, host))
  {
    hide KeycloakAdminSecret, KeycloakDbSecret, WithDefault, WithDefaultInt, DbDefaultHost;
  }

  lemma PostgresNamesDistinct(cr: Horreum, image: string)
    ensures Distinct(PostgresEnv(cr, image))
  {
    hide KeycloakDbSecret, AppUserSecret, DbAdminSecret, WithDefault, IsUpstreamPostgres;
  }

  // Credentials

  /* The container finds this entry of this secret at the variable. */
  predicate Given(h: map<Key, Obj>, ns: string, env: seq<EnvVar>, name: string, secret: string, key: string) {
    Resolve(h, ns, env, name).Some? && Resolve(h, ns, env, name) == Entry(h, ns, secret, key)
  }

  lemma GivenAt(h: map<Key, Obj>, ns: string, env: seq<EnvVar>, i: nat)
    requires Distinct(env) && Resolves(h, ns, env) && i < |env| && env[i].FromSecret?
    ensures Given(h, ns, env, env[i].name, env[i].secret, env[i].key)
  {
    hide Lookup, Distinct;
    LookupFinds(env, i);
  }

  /* A user name and a password, at these variables. */
  predicate GivenUser(h: map<Key, Obj>, ns: string, env: seq<EnvVar>, user: string, password: string, secret: string) {
    Given(h, ns, env, user, secret, "username") && Given(h, ns, env, password, secret, "password")
  }

  lemma AppIsGiven(h: map<Key, Obj>, cr: Horreum, u: string, v: string)
    requires Resolves(h, cr.ns, AppEnv(cr, u, v))
    ensures var env := AppEnv(cr, u, v);
      && GivenUser(h, cr.ns, env, "QUARKUS_DATASOURCE_USERNAME", "QUARKUS_DATASOURCE_PASSWORD", AppUserSecret(cr))
      && Given(h, cr.ns, env, "HORREUM_DB_SECRET", AppUserSecret(cr), "dbsecret")
      && GivenUser(h, cr.ns, env, "QUARKUS_DATASOURCE_MIGRATION_USERNAME", "QUARKUS_DATASOURCE_MIGRATION_PASSWORD",
                   DbAdminSecret(cr))
  {
    hide DbUrl, AppUserSecret, DbAdminSecret, KeycloakInternalUrl, AppInternalUrl, ServesTls, Resolves, Distinct, Given;
    var env := AppEnv(cr, u, v);
    AppNamesDistinct(cr, u, v);
    GivenAt(h, cr.ns, env, 1);
    GivenAt(h, cr.ns, env, 2);
    GivenAt(h, cr.ns, env, 4);
    GivenAt(h, cr.ns, env, 5);
    GivenAt(h, cr.ns, env, 6);
  }

  lemma InitIsGiven(h: map<Key, Obj>, cr: Horreum, u: string, v: string)
    requires Resolves(h, cr.ns, AppInitEnv(cr, v))
    ensures var env := AppInitEnv(cr, v);
      && GivenUser(h, cr.ns, env, "KEYCLOAK_USER", "KEYCLOAK_PASSWORD", KeycloakAdminSecret(cr))
      && GivenUser(h, cr.ns, env, "ADMIN_USERNAME", "ADMIN_PASSWORD", HorreumAdminSecret(cr))
  {
    hide KeycloakAdminSecret, HorreumAdminSecret, KeycloakInternalUrl, CaCertArg, Resolves, Distinct, Given, AppEnv;
    var env := AppInitEnv(cr, v);
    AppNamesDistinct(cr, u, v);
    GivenAt(h, cr.ns, env, 0);
    GivenAt(h, cr.ns, env, 1);
    GivenAt(h, cr.ns, env, 2);
    GivenAt(h, cr.ns, env, 3);
  }

  lemma KeycloakIsGiven(h: map<Key, Obj>, cr: Horreum, host: string)
    requires Resolves(h, cr.ns, KeycloakEnv(cr, host))
    ensures var env := KeycloakEnv(cr, host);
      && GivenUser(h, cr.ns, env, "KEYCLOAK_ADMIN", "KEYCLOAK_ADMIN_PASSWORD", KeycloakAdminSecret(cr))
      && GivenUser(h, cr.ns, env, "KC_DB_USERNAME", "KC_DB_PASSWORD", KeycloakDbSecret(cr))
  {
    hide KeycloakAdminSecret, KeycloakDbSecret, WithDefault, WithDefaultInt, DbDefaultHost, Resolves, Distinct, Given;
    var env := KeycloakEnv(cr, host);
    KeycloakNamesDistinct(cr, host);
    GivenAt(h, cr.ns, env, 0);
    GivenAt(h, cr.ns, env, 1);
    GivenAt(h, cr.ns, env, 8);
    GivenAt(h, cr.ns, env, 9);
  }

  lemma PostgresIsGiven(h: map<Key, Obj>, cr: Horreum, image: string)
    requires Resolves(h, cr.ns, PostgresEnv(cr, image))
    ensures var env := PostgresEnv(cr, image);
      && GivenUser(h, cr.ns, env, "KEYCLOAK_USER", "KEYCLOAK_PASSWORD", KeycloakDbSecret(cr))
      && GivenUser(h, cr.ns, env, "APP_USER", "APP_PASSWORD", AppUserSecret(cr))
      && Given(h, cr.ns, env, "APP_DB_SECRET", AppUserSecret(cr), "dbsecret")
      && Given(h, cr.ns, env, "POSTGRESQL_USER", DbAdminSecret(cr), "username")
      && (if IsUpstreamPostgres(image) then
            Given(h, cr.ns, env, "PGUSER", DbAdminSecret(cr), "username") &&
            GivenUser(h, cr.ns, env, "POSTGRES_USER", "POSTGRES_PASSWORD", DbAdminSecret(cr))
          else Given(h, cr.ns, env, "POSTGRESQL_PASSWORD", DbAdminSecret(cr), "password"))
  {
    hide KeycloakDbSecret, AppUserSecret, DbAdminSecret, WithDefault, IsUpstreamPostgres, Resolves, Distinct, Given;
    var env := PostgresEnv(cr, image);
    PostgresNamesDistinct(cr, image);
    GivenAt(h, cr.ns, env, 0);
    GivenAt(h, cr.ns, env, 1);
    GivenAt(h, cr.ns, env, 2);
    GivenAt(h, cr.ns, env, 3);
    GivenAt(h, cr.ns, env, 4);
    if IsUpstreamPostgres(image) {
      GivenAt(h, cr.ns, env, 8);
      GivenAt(h, cr.ns, env, 9);
      GivenAt(h, cr.ns, env, 10);
      GivenAt(h, cr.ns, env, 11);
    } else {
      GivenAt(h, cr.ns, env, 6);
      GivenAt(h, cr.ns, env, 7);
    }
  }

  /* The images that take the variables of the upstream image. */
  predicate IsUpstream(image: string) {
    "docker.io/library/postgres" <= image || "postgres" <= image
  }

  /* The name of a secret: the one that the resource gives, or else its own name with a suffix. */
  function SecretName(cr: Horreum, given: string, suffix: string): string {
    if given != "" then given else cr.name + suffix
  }

  /* The application, its init container and postgres: user name and password are
     entries of the secret that the resource names for this account. */
  predicate AccountsAgree(
    cr: Horreum, h: map<Key, Obj>, main: seq<EnvVar>, init: seq<EnvVar>, db: seq<EnvVar>, upstream: bool)
  {
    var user := SecretName(cr, cr.spec.database.secret, "-app");
    var root := SecretName(cr, cr.spec.postgres.adminSecret, "-db-admin");
    && GivenUser(h, cr.ns, main, "QUARKUS_DATASOURCE_USERNAME", "QUARKUS_DATASOURCE_PASSWORD", user)
    && GivenUser(h, cr.ns, db, "APP_USER", "APP_PASSWORD", user)
    && Given(h, cr.ns, main, "HORREUM_DB_SECRET", user, "dbsecret")
    && Given(h, cr.ns, db, "APP_DB_SECRET", user, "dbsecret")
    && GivenUser(h, cr.ns, main, "QUARKUS_DATASOURCE_MIGRATION_USERNAME", "QUARKUS_DATASOURCE_MIGRATION_PASSWORD", root)
    && Given(h, cr.ns, db, "POSTGRESQL_USER", root, "username")
    && (if upstream then
          Given(h, cr.ns, db, "PGUSER", root, "username") &&
          GivenUser(h, cr.ns, db, "POSTGRES_USER", "POSTGRES_PASSWORD", root)
        else Given(h, cr.ns, db, "POSTGRESQL_PASSWORD", root, "password"))
    && GivenUser(h, cr.ns, init, "ADMIN_USERNAME", "ADMIN_PASSWORD", SecretName(cr, cr.spec.adminSecret, "-admin"))
  }

  /* Keycloak's accounts: in its database, with postgres, and its administrator,
     with the init container of the application. */
  predicate KeycloakAgrees(cr: Horreum, h: map<Key, Obj>, kc: seq<EnvVar>, init: seq<EnvVar>, db: seq<EnvVar>) {
    var user := SecretName(cr, cr.spec.keycloak.database.secret, "-keycloak-db");
    var admin := SecretName(cr, cr.spec.keycloak.adminSecret, "-keycloak-admin");
    && GivenUser(h, cr.ns, kc, "KC_DB_USERNAME", "KC_DB_PASSWORD", user)
    && GivenUser(h, cr.ns, db, "KEYCLOAK_USER", "KEYCLOAK_PASSWORD", user)
    && GivenUser(h, cr.ns, kc, "KEYCLOAK_ADMIN", "KEYCLOAK_ADMIN_PASSWORD", admin)
    && GivenUser(h, cr.ns, init, "KEYCLOAK_USER", "KEYCLOAK_PASSWORD", admin)
  }

  predicate CredentialsAgree(
    cr: Horreum, h: map<Key, Obj>, app: Manifest, keycloak: Option<Manifest>, postgres: Manifest)
  {
    && app.PodM? && |app.spec.containers| == |app.spec.initContainers| == 1
    && postgres.PodM? && |postgres.spec.containers| == 1
    && var main, init := app.spec.containers[0].env, app.spec.initContainers[0].env;
    && var db := postgres.spec.containers[0].env;
    && AccountsAgree(cr, h, main, init, db, IsUpstream(postgres.spec.containers[0].image))
    && (keycloak.Some? ==>
          keycloak.value.PodM? && |keycloak.value.spec.containers| == 1 &&
          KeycloakAgrees(cr, h, keycloak.value.spec.containers[0].env, init, db))
  }

  lemma SecretNames(cr: Horreum)
    ensures AppUserSecret(cr) == SecretName(cr, cr.spec.database.secret, "-app")
    ensures DbAdminSecret(cr) == SecretName(cr, cr.spec.postgres.adminSecret, "-db-admin")
    ensures KeycloakDbSecret(cr) == SecretName(cr, cr.spec.keycloak.database.secret, "-keycloak-db")
    ensures KeycloakAdminSecret(cr) == SecretName(cr, cr.spec.keycloak.adminSecret, "-keycloak-admin")
    ensures HorreumAdminSecret(cr) == SecretName(cr, cr.spec.adminSecret, "-admin")
    ensures forall image: string :: IsUpstreamPostgres(image) == IsUpstream(image)
  {
  }

  lemma WantedAccountsAgree(env: Env, cr: Horreum, h: map<Key, Obj>, u: string, v: string)
    requires AsWanted(PlanFor(env, cr), h)
    ensures var db := PostgresEnv(cr, DbImage(cr, env.redHat));
      && AccountsAgree(cr, h, AppEnv(cr, u, v), AppInitEnv(cr, v), db, IsUpstream(DbImage(cr, env.redHat)))
      && forall host: string :: KeycloakAgrees(cr, h, KeycloakEnv(cr, host), AppInitEnv(cr, v), db)
  {
    hide PlanFor, AsWanted, Resolves, AppEnv, AppInitEnv, KeycloakEnv, PostgresEnv, Given, GivenUser;
    hide AppUserSecret, DbAdminSecret, KeycloakDbSecret, KeycloakAdminSecret, HorreumAdminSecret, DbImage;
    hide IsUpstream, IsUpstreamPostgres, SecretName;
    SecretNames(cr);
    WantedResolves(env, cr, h);
    AppIsGiven(h, cr, u, v);
    InitIsGiven(h, cr, u, v);
    PostgresIsGiven(h, cr, DbImage(cr, env.redHat));
    forall host: string ensures KeycloakAgrees(cr, h, KeycloakEnv(cr, host), AppInitEnv(cr, v),
                                               PostgresEnv(cr, DbImage(cr, env.redHat)))
    {
      KeycloakIsGiven(h, cr, host);
    }
  }

  lemma WantedCredentialsAgree(env: Env, cr: Horreum, h: map<Key, Obj>, u: string, v: string)
    requires AsWanted(PlanFor(env, cr), h)
    ensures CredentialsAgree(cr, h, AppPod(cr, u, v), KeycloakPod(env, cr, u), PostgresPod(cr, env.redHat))
  {
    hide PlanFor, AsWanted, AccountsAgree, KeycloakAgrees, AppEnv, AppInitEnv, KeycloakEnv, PostgresEnv, Labels;
    hide AppMounts, AppVolumes, PostgresVolumes, PostgresInit, PostgresUser, KeycloakCertSecret, InitDir, DbImage;
    hide AppImage, IsUpstream;
    WantedAccountsAgree(env, cr, h, u, v);
  }

  /** When a reconciliation ends Ready, the pods that the resource asks for are made
      with credentials that agree: resolved in the live secrets, what the
      application and Keycloak present to the database is what postgres was given
      for them, and what the init container presents to Keycloak is what Keycloak
      was given; each from the entry that its variable is for. */
  lemma ReadyCredentialsAgree(o: Oracle, env: Env, w: World)
    requires Sound(w) && w.cr.Some?
    requires Reconcile(o, env, w).halt == Some(Finished) && Reconcile(o, env, w).st.phase == Ready
    ensures var p, t := PlanOf(env, w.cr.value), Reconcile(o, env, w);
      CredentialsAgree(w.cr.value, t.w.home, p.appPod(t.st.keycloakUrl, t.st.publicUrl),
                       p.keycloakPod(t.st.keycloakUrl), p.postgresPod)
  {
    hide Reconcile, AsWanted, CredentialsAgree, PlanFor, AppPod, KeycloakPod, PostgresPod;
    var cr, t := w.cr.value, Reconcile(o, env, w);
    var bare := cr.(status := NO_STATUS);
    Fixpoint.ReadyMeansWanted(o, env, w);
    PodsOfPlan(env, bare);
    WantedCredentialsAgree(env, bare, t.w.home, t.st.keycloakUrl, t.st.publicUrl);
    SameWithoutStatus(cr, t.w.home, AppPod(bare, t.st.keycloakUrl, t.st.publicUrl),
                      KeycloakPod(env, bare, t.st.keycloakUrl), PostgresPod(bare, env.redHat));
  }

  lemma SameWithoutStatus(
    cr: Horreum, h: map<Key, Obj>, app: Manifest, keycloak: Option<Manifest>, postgres: Manifest)
    requires CredentialsAgree(cr.(status := NO_STATUS), h, app, keycloak, postgres)
    ensures CredentialsAgree(cr, h, app, keycloak, postgres)
  {
    hide GivenUser, Given, IsUpstream;
  }
}
