/** The Horreum custom resource: api/v1alpha1/horreum_types.go. */
module HorreumApi {
  import opened Wrappers
  import opened Resources

  datatype DatabaseSpec = DatabaseSpec(host: string, port: int, name: string, secret: string)
  datatype RouteSpec = RouteSpec(host: string, kind: string, tls: string)
  datatype ExternalSpec = ExternalSpec(publicUri: string, internalUri: string)
  datatype KeycloakSpec = KeycloakSpec(
    external: ExternalSpec, image: string, route: RouteSpec, serviceType: string,
    adminSecret: string, database: DatabaseSpec)
  datatype PostgresSpec = PostgresSpec(
    enabled: Option<bool>, image: string, adminSecret: string, claim: string, user: Option<int>)
  datatype HorreumSpec = HorreumSpec(
    adminSecret: string, route: RouteSpec, serviceType: string, image: string,
    database: DatabaseSpec, keycloak: KeycloakSpec, postgres: PostgresSpec, nodeHost: string)

  datatype Phase = Blank | Ready | Pending | Error

  /* The status texts, with the object they speak about instead of its printed form. */
  datatype Reason =
    | NoReason
    | AdminPassword(secret: string)
    | NodeHostMissing
    | Creating(key: Key)
    | CannotCreate(key: Key)
    | CannotFind(key: Key)
    | CannotDelete(key: Key)
    | CannotFindSecret(name: string)
    | CannotCreateCaSecret
    | WrongKind(key: Key)
    | MissingData(key: Key, data: string)
    | CannotPullImage(key: Key)
    | TerminatedContainer(key: Key)
    | PodNotReady(key: Key)
    | RouteNotAdmitted(key: Key)
    | RouteUnknown(key: Key)
    | WaitingForNodePort(key: Key)
    | WaitingForUrl(key: Key)

  datatype Status = Status(
    phase: Phase, lastUpdate: int, reason: Reason, publicUrl: string, keycloakUrl: string)

  const NO_STATUS := Status(Blank, 0, NoReason, "", "")

  datatype Horreum = Horreum(
    ns: string, name: string, javaOptions: Option<string>, spec: HorreumSpec, status: Status)
}
