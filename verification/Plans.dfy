/**
  What one reconciliation wants, as data: the manifests and switches that the
  builders derive from a Horreum resource before and during a run.
 */
module Plans {
  import opened Wrappers
  import opened Resources

  /* How a public URL is obtained (controllers/horreum_controller.go:196-218). */
  datatype Access = ByNodePort | ByLoadBalancer | ByRoute | Nowhere

  datatype CertTask = CertTask(key: Key, service: string, serial: int)

  datatype SecretTask = SecretTask(key: Key, withDbSecret: bool)

  /* The TLS part of a route, as the switch in controllers/utils.go:80-118 sees it. */
  datatype TlsMode = NoTls | Passthrough | Secured(termination: Termination) | BadType

  datatype RouteTask = RouteTask(
    key: Key, host: string, subdomain: string,
    supported: bool,           // the check of keycloakRoute; appRoute has none
    tlsMode: TlsMode,          // from the application's route, for both routes
    tlsSecret: string,         // from the application's route, for both routes
    reported: string)          // the secret name that an error message shows

  datatype Plan = Plan(
    owner: Owner,
    nodeHost: string,
    hostMissing: bool,
    adminSecret: string,
    routes: bool,
    caKey: Key, trustKey: Key, appCert: CertTask, keycloakCert: CertTask,
    dbAdmin: SecretTask, appUser: SecretTask, keycloakAdmin: SecretTask, keycloakDb: SecretTask, admin: SecretTask,
    postgres: bool, postgresMap: Manifest, postgresPod: Manifest, postgresService: Manifest,
    keycloakUri: string, keycloakService: Manifest, keycloakAccess: Access, keycloakRoute: RouteTask,
    keycloakPodKey: Key, keycloakPod: string -> Option<Manifest>,
    appService: Manifest, appAccess: Access, appRoute: RouteTask,
    appPodKey: Key, appPod: (string, string) -> Manifest,
    upload: Manifest)

  function TrustManifest(p: Plan): Manifest {
    ConfigMapM(p.trustKey, map[], map[])
  }

  function NeededKeys(t: SecretTask): seq<string> {
    if t.withDbSecret then [USERNAME, PASSWORD, DBSECRET] else [USERNAME, PASSWORD]
  }

  function SecretKeys(p: Plan): set<Key> {
    {p.dbAdmin.key, p.appUser.key, p.keycloakAdmin.key, p.keycloakDb.key, p.admin.key}
  }

  function CertKeys(p: Plan): set<Key> {
    {p.caKey, p.appCert.key, p.keycloakCert.key}
  }

  /* Every object the operator may create or delete for this resource. */
  function Footprint(p: Plan): set<Key> {
    SecretKeys(p) + CertKeys(p) +
    {p.trustKey, p.postgresMap.key, p.postgresPod.key, p.postgresService.key,
     p.keycloakService.key, p.keycloakRoute.key, p.keycloakPodKey,
     p.appService.key, p.appRoute.key, p.appPodKey, p.upload.key}
  }

  predicate IsKind(k: Key, kind: Kind, ns: string) {
    k.kind == kind && k.ns == ns
  }

  predicate OwnManifest(m: Manifest, kind: Kind, ns: string) {
    KindOf(m) == kind && IsKind(m.key, kind, ns)
  }

  ghost predicate SecretsFormed(p: Plan) {
    && (forall k | k in SecretKeys(p) :: IsKind(k, SecretKind, p.owner.ns))
    && (forall k | k in CertKeys(p) :: IsKind(k, SecretKind, p.owner.ns))
    && p.caKey != p.appCert.key && p.caKey != p.keycloakCert.key && p.appCert.key != p.keycloakCert.key
  }

  ghost predicate MapsFormed(p: Plan) {
    && IsKind(p.trustKey, ConfigMapKind, p.owner.ns)
    && OwnManifest(p.postgresMap, ConfigMapKind, p.owner.ns)
    && OwnManifest(p.upload, ConfigMapKind, p.owner.ns)
    && p.trustKey != p.postgresMap.key && p.trustKey != p.upload.key && p.postgresMap.key != p.upload.key
  }

  ghost predicate PodsFormed(p: Plan) {
    && OwnManifest(p.postgresPod, PodKind, p.owner.ns)
    && IsKind(p.keycloakPodKey, PodKind, p.owner.ns) && IsKind(p.appPodKey, PodKind, p.owner.ns)
    && p.postgresPod.key != p.keycloakPodKey && p.postgresPod.key != p.appPodKey && p.keycloakPodKey != p.appPodKey
    && (forall u: string ::
          p.keycloakPod(u).Some? ==>
            p.keycloakPod(u).value.PodM? && p.keycloakPod(u).value.key == p.keycloakPodKey)
    && (forall u: string, v: string :: p.appPod(u, v).PodM? && p.appPod(u, v).key == p.appPodKey)
  }

  ghost predicate ServicesFormed(p: Plan) {
    && OwnManifest(p.postgresService, ServiceKind, p.owner.ns)
    && OwnManifest(p.keycloakService, ServiceKind, p.owner.ns)
    && OwnManifest(p.appService, ServiceKind, p.owner.ns)
    && p.postgresService.key != p.keycloakService.key && p.postgresService.key != p.appService.key
    && p.keycloakService.key != p.appService.key
    && |p.keycloakService.ports| == 1 && |p.appService.ports| == 1
    && (p.keycloakAccess.ByNodePort? <==> p.keycloakService.serviceType == "NodePort")
    && (p.appAccess.ByNodePort? <==> p.appService.serviceType == "NodePort")
  }

  ghost predicate RoutesFormed(p: Plan) {
    && IsKind(p.keycloakRoute.key, RouteKind, p.owner.ns) && IsKind(p.appRoute.key, RouteKind, p.owner.ns)
    && p.keycloakRoute.key != p.appRoute.key
    && p.appRoute.supported
    && (p.keycloakAccess.ByRoute? || p.appAccess.ByRoute? ==> p.routes)
  }

  /* The three pods, the three services, the two routes and the three config
     maps have different names; everything lives in one namespace. */
  ghost predicate WellFormed(p: Plan) {
    SecretsFormed(p) && MapsFormed(p) && PodsFormed(p) && ServicesFormed(p) && RoutesFormed(p)
  }
}
