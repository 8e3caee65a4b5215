/**
  Which edits of a resource, and which changes of a public URL, are noticed on a
  live pod, whatever admission added to it (controllers/app.go:13-62, 138-160,
  keycloak.go:87-90).
 */
module PodEdits {
  import opened Wrappers
  import opened Trees
  import opened Resources
  import opened HorreumApi
  import opened Builders
  import opened PodSpecs

  /* A live tree made from one spec and matching another: both set the same. */
  lemma MatchingSpecsFit(a: PodSpec, b: PodSpec, live: Tree)
    requires Derives(Encode(a), live) && Derives(Encode(b), live)
    ensures SpecFits(Admitted, a, b)
  {
    hide Encode, SpecFits, Derives, Agree;
    BothMatchAgree(Encode(a), Encode(b), live);
    SpecRelated(Admitted, a, b);
  }

  lemma AppEnvAt(cr: Horreum, u: string, v: string)
    ensures var env := AppEnv(cr, u, v);
      && |env| >= 12
      && env[0] == Value("QUARKUS_DATASOURCE_JDBC_URL", DbUrl(cr, cr.spec.database, "horreum"))
      && env[1] == FromSecret("QUARKUS_DATASOURCE_USERNAME", AppUserSecret(cr), USERNAME)
      && env[4] == FromSecret("QUARKUS_DATASOURCE_MIGRATION_USERNAME", DbAdminSecret(cr), USERNAME)
      && env[7] == Value("QUARKUS_OIDC_AUTH_SERVER_URL", KeycloakInternalUrl(cr) + "/realms/horreum")
      && env[8] == Value("QUARKUS_OIDC_TOKEN_ISSUER", u + "/realms/horreum")
      && env[9] == Value("HORREUM_URL", v)
      && env[10] == Value("HORREUM_INTERNAL_URL", AppInternalUrl(cr))
  {
    hide DbUrl, AppUserSecret, DbAdminSecret, KeycloakInternalUrl, AppInternalUrl, ServesTls;
  }

  lemma SameBefore(a: string, b: string, suffix: string)
    requires a + suffix == b + suffix
    ensures a == b
  {
    assert a == (a + suffix)[..|a + suffix| - |suffix|] && b == (b + suffix)[..|b + suffix| - |suffix|];
  }

  lemma AppInitAt(cr: Horreum, v: string)
    ensures var env := AppInitEnv(cr, v);
      && |env| == 7
      && env[0] == FromSecret("KEYCLOAK_USER", KeycloakAdminSecret(cr), USERNAME)
      && env[2] == FromSecret("ADMIN_USERNAME", HorreumAdminSecret(cr), USERNAME)
  {
    hide KeycloakAdminSecret, HorreumAdminSecret, KeycloakInternalUrl, CaCertArg;
  }

  lemma SetTexts(cr: Horreum)
    ensures AppImage(cr) != "" && AppUserSecret(cr) != "" && DbAdminSecret(cr) != ""
    ensures KeycloakAdminSecret(cr) != "" && HorreumAdminSecret(cr) != ""
    ensures DbUrl(cr, cr.spec.database, "horreum") != "" && AppInternalUrl(cr) != ""
  {
    assert DbUrl(cr, cr.spec.database, "horreum")[0] == 'j';
    assert AppInternalUrl(cr)[0] == 'h';
  }

  /** Whatever admission did, a live application pod that still matches after an
      edit of the resource has the image, the database URL, the secrets, the
      internal URLs and the public URLs that are wanted now. */
  lemma AppEditsAreNoticed(
    cr: Horreum, u: string, v: string, made: Horreum, madeU: string, madeV: string, live: Tree)
    requires v != "" && madeV != "" && Derives(Encode(AppPodSpec(made, madeU, madeV)), live)
    requires Derives(Encode(AppPodSpec(cr, u, v)), live)
    ensures u == madeU && v == madeV && AppImage(cr) == AppImage(made)
    ensures DbUrl(cr, cr.spec.database, "horreum") == DbUrl(made, made.spec.database, "horreum")
    ensures AppUserSecret(cr) == AppUserSecret(made) && DbAdminSecret(cr) == DbAdminSecret(made)
    ensures KeycloakAdminSecret(cr) == KeycloakAdminSecret(made) && HorreumAdminSecret(cr) == HorreumAdminSecret(made)
    ensures KeycloakInternalUrl(cr) == KeycloakInternalUrl(made) && AppInternalUrl(cr) == AppInternalUrl(made)
  {
    hide Derives, Encode, AppEnv, AppInitEnv, AppImage, AppMounts, AppVolumes, VolumesFit;
    hide DbUrl, AppUserSecret, DbAdminSecret, KeycloakAdminSecret, HorreumAdminSecret;
    hide KeycloakInternalUrl, AppInternalUrl;
    var a, b := AppPodSpec(cr, u, v), AppPodSpec(made, madeU, madeV);
    MatchingSpecsFit(a, b, live);
    var x, y := AppEnv(cr, u, v), AppEnv(made, madeU, madeV);
    var ix, iy := AppInitEnv(cr, v), AppInitEnv(made, madeV);
    AppEnvAt(cr, u, v);
    AppEnvAt(made, madeU, madeV);
    AppInitAt(cr, v);
    AppInitAt(made, madeV);
    SetTexts(cr);
    SetTexts(made);
    assert ContainerFits(Admitted, a.containers[0], b.containers[0]);
    assert ContainerFits(Admitted, a.initContainers[0], b.initContainers[0]);
    assert EnvFits(Admitted, x[0], y[0]) && EnvFits(Admitted, x[1], y[1]) && EnvFits(Admitted, x[4], y[4]);
    assert EnvFits(Admitted, x[7], y[7]) && EnvFits(Admitted, x[8], y[8]) && EnvFits(Admitted, x[9], y[9]);
    assert EnvFits(Admitted, x[10], y[10]) && EnvFits(Admitted, ix[0], iy[0]) && EnvFits(Admitted, ix[2], iy[2]);
    SameBefore(KeycloakInternalUrl(cr), KeycloakInternalUrl(made), "/realms/horreum");
    SameBefore(u, madeU, "/realms/horreum");
  }

  /** A live application pod that was made for two URLs, and admitted in whatever
      way, is kept if and only if both are still the current ones. */
  lemma AppPodMatchesIff(cr: Horreum, u: string, v: string, u': string, v': string, live: Tree)
    requires v != "" && v' != "" && Derives(Encode(AppPodSpec(cr, u', v')), live)
    ensures Derives(Encode(AppPodSpec(cr, u, v)), live) <==> u == u' && v == v'
  {
    hide Derives, Encode, AppPodSpec;
    if Derives(Encode(AppPodSpec(cr, u, v)), live) {
      AppEditsAreNoticed(cr, u, v, cr, u', v', live);
    }
  }

  lemma KeycloakEnvHost(cr: Horreum, host: string)
    ensures |KeycloakEnv(cr, host)| == 10 && KeycloakEnv(cr, host)[7] == Value("KC_HOSTNAME", host)
  {
    hide KeycloakAdminSecret, KeycloakDbSecret, WithDefault, WithDefaultInt, DbDefaultHost;
  }

  /** A live Keycloak pod is kept if and only if the host of its URL (which
      url.ParseRequestURI gives together with the port) is the one it was made for. */
  lemma KeycloakPodMatchesIff(cr: Horreum, host: string, host': string, live: Tree)
    requires host != "" && host' != "" && Derives(Encode(KeycloakPodSpec(cr, host')), live)
    ensures Derives(Encode(KeycloakPodSpec(cr, host)), live) <==> host == host'
  {
    hide Derives, Encode, KeycloakEnv, WithDefault, KeycloakCertSecret;
    if Derives(Encode(KeycloakPodSpec(cr, host)), live) {
      var a, b := KeycloakPodSpec(cr, host), KeycloakPodSpec(cr, host');
      MatchingSpecsFit(a, b, live);
      KeycloakEnvHost(cr, host);
      KeycloakEnvHost(cr, host');
      assert ContainerFits(Admitted, a.containers[0], b.containers[0]);
      assert EnvFits(Admitted, KeycloakEnv(cr, host)[7], KeycloakEnv(cr, host')[7]);
    }
  }

  lemma NothingElseDepends(cr: Horreum)
    ensures var bare := cr.(javaOptions := None);
      && DbUrl(bare, bare.spec.database, "horreum") == DbUrl(cr, cr.spec.database, "horreum")
      && AppUserSecret(bare) == AppUserSecret(cr) && DbAdminSecret(bare) == DbAdminSecret(cr)
      && KeycloakInternalUrl(bare) == KeycloakInternalUrl(cr) && AppInternalUrl(bare) == AppInternalUrl(cr)
  {
  }

  lemma AppEnvTail(cr: Horreum, u: string, v: string)
    ensures var env, base := AppEnv(cr, u, v), AppEnv(cr.(javaOptions := None), u, v);
      && base[..12] == env[..12]
      && (ServesTls(cr.spec.route.kind) ==>
            |base| > 12 && base[12] == Value("QUARKUS_HTTP_SSL_CERTIFICATE_FILE", "/opt/certs/tls.crt"))
      && (!ServesTls(cr.spec.route.kind) ==> |base| == 12)
      && (cr.javaOptions.Some? ==> |env| > 12 && env[12].name == "JAVA_OPTIONS")
  {
    hide DbUrl, AppUserSecret, DbAdminSecret, KeycloakInternalUrl, AppInternalUrl;
    NothingElseDepends(cr);
  }

  /* A pod whose main container lacks the last variables of another one's. */
  lemma ShorterEnvMatches(a: PodSpec, b: PodSpec, n: nat, live: Tree)
    requires |b.containers| == 1 && n <= |b.containers[0].env| && Derives(Encode(b), live)
    requires a == b.(containers := [b.containers[0].(env := b.containers[0].env[..n])])
    ensures Derives(Encode(a), live)
  {
    hide Derives, Encode, EnvFits, MountFits, VolumesFit;
    DerivesReflexive(Encode(b));
    SpecRelated(AsIs, b, b);
    SpecRelated(AsIs, a, b);
    assert ContainerFits(AsIs, b.containers[0], b.containers[0]);
    DerivesTransitive(Encode(a), Encode(b), live);
  }

  lemma NamesFit(a: EnvVar, b: EnvVar)
    requires EnvFits(Admitted, a, b) && a.name != "" && b.name != ""
    ensures a.name == b.name
  {
  }

  lemma SameOtherwise(cr: Horreum, u: string, v: string)
    ensures var bare, b := cr.(javaOptions := None), AppPodSpec(cr, u, v);
      AppPodSpec(bare, u, v) == b.(containers := [b.containers[0].(env := AppEnv(bare, u, v))])
  {
    hide AppEnv;
  }

  /** The Java options are the last variable of an application that does not serve
      TLS, and one before others of an application that does: to take the
      annotation away again leaves the live pod as it is in the first case, and
      only there. */
  lemma OptionsRemovalUnnoticedIff(cr: Horreum, u: string, v: string, live: Tree)
    requires cr.javaOptions.Some? && Derives(Encode(AppPodSpec(cr, u, v)), live)
    ensures Derives(Encode(AppPodSpec(cr.(javaOptions := None), u, v)), live) <==> !ServesTls(cr.spec.route.kind)
  {
    hide Derives, Encode, AppEnv, ServesTls, EnvFits, MountFits, VolumesFit;
    hide AppInitEnv, AppVolumes, AppMounts, AppImage;
    var bare := cr.(javaOptions := None);
    var a, b := AppPodSpec(bare, u, v), AppPodSpec(cr, u, v);
    var x, y := AppEnv(bare, u, v), AppEnv(cr, u, v);
    AppEnvTail(cr, u, v);
    if !ServesTls(cr.spec.route.kind) {
      assert x == y[..12];
      SameOtherwise(cr, u, v);
      ShorterEnvMatches(a, b, 12, live);
    } else if Derives(Encode(a), live) {
      MatchingSpecsFit(a, b, live);
      assert ContainerFits(Admitted, a.containers[0], b.containers[0]);
      assert EnvFits(Admitted, x[12], y[12]);
      NamesFit(x[12], y[12]);
    }
  }
}
