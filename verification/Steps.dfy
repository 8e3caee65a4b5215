/**
  The reconciler on values: each step takes the state of a run and gives the
  next one.  A run that has stopped stays as it is.  The methods of Controller
  are proved to compute these functions, and the properties are proved of them.
 */
module Steps {
  import opened Wrappers
  import opened Resources
  import opened HorreumApi
  import opened Matching
  import opened Worlds
  import opened Plans

  datatype PanicCause = NilPod | NilService | NoPorts | NilRoute

  /* How a run ends. */
  datatype Verdict =
    | Finished             // Result{}, nil after the last step
    | Ignored              // Result{}, nil because there is no such resource
    | Requeued             // Result{Requeue: true}, nil
    | Failed               // an error was returned
    | Crashed              // the operator stopped
    | Panicked(cause: PanicCause)

  /* A call of setStatus. */
  datatype Note = Note(phase: Phase, reason: Reason, time: int)

  datatype Run = Run(
    w: World,
    st: Status,            // the in-memory status of the resource
    notes: seq<Note>,      // the setStatus calls of this run
    halt: Option<Verdict>)

  // Status (controllers/horreum_controller.go:428-440)

  function SetStatus(o: Oracle, s: Run, phase: Phase, reason: Reason): Run {
    var note := Note(phase, reason, o.now(s.w.clock));
    s.(notes := s.notes + [note],
       st := if s.st.phase == Error && phase == Pending then s.st
             else s.st.(phase := phase, reason := reason, lastUpdate := note.time))
  }

  function Stop(s: Run, verdict: Verdict): Run {
    if s.halt.Some? then s else s.(halt := Some(verdict))
  }

  function UpdateStatus(o: Oracle, s: Run, phase: Phase, reason: Reason): Run {
    var t := SetStatus(o, s, phase, reason);
    var (w, ack) := StoreStatus(o, t.w, t.st);
    if ack == Gone then Stop(t.(w := w), Crashed) else t.(w := w)
  }

  /* updateStatus followed by a return */
  function Quit(o: Oracle, s: Run, phase: Phase, reason: Reason, verdict: Verdict): Run {
    Stop(UpdateStatus(o, s, phase, reason), verdict)
  }

  // ensureSame and ensureDeleted (controllers/horreum_controller.go:305-364)

  function CreateStep(o: Oracle, p: Plan, s: Run, want: Manifest): Run {
    var (w, ack) := Create(o, s.w, p.owner, want);
    match ack
    case Gone => Stop(s.(w := w), Crashed)
    case Denied => Quit(o, s.(w := w), Error, CannotCreate(want.key), Failed)
    case Done => SetStatus(o, s.(w := w), Pending, Creating(want.key))
  }

  function ReplaceStep(o: Oracle, p: Plan, s: Run, want: Manifest): Run {
    var (w, ack) := Delete(o, s.w, want.key);
    match ack
    case Gone => Stop(s.(w := w), Crashed)
    case Denied => Quit(o, s.(w := w), Error, CannotDelete(want.key), Failed)
    case Done => CreateStep(o, p, s.(w := w), want)
  }

  function CheckStep(o: Oracle, s: Run, key: Key, mode: Mode, have: Obj): Run {
    match CheckProblem(mode, key, have)
    case None => s
    case Some(problem) => SetStatus(o, s, problem.phase, problem.reason)
  }

  /* The second result is what the out parameter holds afterwards: the object
     that was found, even when it has just been replaced. */
  function EnsureSame(o: Oracle, p: Plan, s: Run, want: Manifest, mode: Mode): (Run, Option<Obj>) {
    if s.halt.Some? then (s, None)
    else
      var (w, fetch) := Get(o, s.w, want.key);
      var t := s.(w := w);
      match fetch
      case Died => (Stop(t, Crashed), None)
      case Unavailable => (Quit(o, t, Error, CannotFind(want.key), Failed), None)
      case NotFound => (CreateStep(o, p, t, want), None)
      case Found(have) =>
        if Matches(mode, want, have) then (CheckStep(o, t, want.key, mode, have), Some(have))
        else (ReplaceStep(o, p, t, want), Some(have))
  }

  function EnsureDeleted(o: Oracle, s: Run, key: Key): Run {
    if s.halt.Some? then s
    else
      var (w, fetch) := Get(o, s.w, key);
      var t := s.(w := w);
      match fetch
      case Died => Stop(t, Crashed)
      case NotFound => t
      case Unavailable => Quit(o, t, Error, CannotFind(key), Failed)
      case Found(_) =>
        var (w', ack) := Delete(o, t.w, key);
        var u := t.(w := w');
        match ack
        case Gone => Stop(u, Crashed)
        case Denied => Quit(o, u, Error, CannotDelete(key), Failed)
        case Done => u
  }

  // The chain of trust (controllers/certificates.go)

  datatype Authority = Authority(cert: Certificate, key: PrivateKey)

  const CA_SERIAL := 2019

  function CaCertificate(key: PrivateKey): Certificate {
    Certificate(CA_SERIAL, "ca.horreum.hyperfoil.io", [], true, key.public, key.public)
  }

  function CaSecret(p: Plan, key: PrivateKey): Manifest {
    SecretM(p.caKey, map[TLSKEY := KeyPem(key), TLSCERT := CertPem(CaCertificate(key))])
  }

  function DataAt(data: map<string, Blob>, key: string): Blob {
    if key in data then data[key] else Plain("")
  }

  function SecretData(have: Obj): map<string, Blob> {
    if have.Secret? then have.data else map[]
  }

  /* Decoding and parsing the two entries of the CA secret. */
  function ReadAuthority(have: Obj): Option<Authority> {
    var cert := DataAt(SecretData(have), TLSCERT);
    var key := DataAt(SecretData(have), TLSKEY);
    if cert.CertPem? && key.KeyPem? then Some(Authority(cert.cert, key.key)) else None
  }

  function MakeAuthority(o: Oracle, p: Plan, s: Run): (Run, Option<Authority>) {
    if o.rsa(s.w.clock) == None || !o.signs(s.w.clock) then (Stop(s, Failed), None)
    else
      var key := o.rsa(s.w.clock).value;
      var (w, ack) := Create(o, s.w, p.owner, CaSecret(p, key));
      var t := s.(w := w);
      match ack
      case Gone => (Stop(t, Crashed), None)
      case Denied => (Quit(o, t, Error, CannotCreateCaSecret, Failed), None)
      case Done => (t, Some(Authority(CaCertificate(key), key)))
  }

  function LoadAuthority(o: Oracle, p: Plan, s: Run): (Run, Option<Authority>) {
    if s.halt.Some? then (s, None)
    else
      var (w, fetch) := Get(o, s.w, p.caKey);
      var t := s.(w := w);
      match fetch
      case Died => (Stop(t, Crashed), None)
      case Unavailable => (Stop(t, Failed), None)
      case NotFound => MakeAuthority(o, p, t)
      case Found(have) =>
        var authority := ReadAuthority(have);
        (if authority == None then Stop(t, Failed) else t, authority)
  }

  /* The create-if-missing protocol shared by service-ca.crt and the service
     certificates: no status is set, and what is there already is left alone.
     There is nothing to create when a key or a signature could not be made. */
  function CreateIfMissing(o: Oracle, p: Plan, s: Run, key: Key, made: Option<Manifest>): Run {
    if s.halt.Some? then s
    else
      var (w, fetch) := Get(o, s.w, key);
      var t := s.(w := w);
      match fetch
      case Died => Stop(t, Crashed)
      case Unavailable => Stop(t, Failed)
      case Found(_) => t
      case NotFound =>
        if made == None then Stop(t, Failed)
        else
          var (w', ack) := Create(o, w, p.owner, made.value);
          match ack
          case Gone => Stop(t.(w := w'), Crashed)
          case Denied => Stop(t.(w := w'), Failed)
          case Done => t.(w := w')
  }

  const CABUNDLE := "service-ca.crt"

  function TrustBundle(p: Plan, authority: Authority): Manifest {
    ConfigMapM(p.trustKey, map[], map[CABUNDLE := CertPem(authority.cert)])
  }

  function CreateCA(o: Oracle, p: Plan, s: Run): (Run, Option<Authority>) {
    var (t, authority) := LoadAuthority(o, p, s);
    if authority == None then (t, None)
    else (CreateIfMissing(o, p, t, p.trustKey, Some(TrustBundle(p, authority.value))), authority)
  }

  function ServiceSans(service: string, ns: string, nodeHost: string): seq<string> {
    [service + "." + ns + ".svc",
     service + "." + ns + ".svc.cluster.local",
     "*." + service + "." + ns + ".svc",
     "*." + service + "." + ns + ".svc.cluster.local"] +
    (if nodeHost != "" then [nodeHost] else [])
  }

  function ServiceCertificate(p: Plan, authority: Authority, task: CertTask, key: PrivateKey): Certificate {
    Certificate(task.serial, task.service, DnsNames(ServiceSans(task.service, p.owner.ns, p.nodeHost)), false,
                key.public, authority.key.public)
  }

  function CertSecret(o: Oracle, n: nat, p: Plan, authority: Authority, task: CertTask): Option<Manifest> {
    if o.rsa(n) == None || !o.signs(n) then None
    else
      var key := o.rsa(n).value;
      var cert := ServiceCertificate(p, authority, task, key);
      Some(SecretM(task.key, map[TLSCERT := CertPem(cert), TLSKEY := KeyPem(key)]))
  }

  function CreateServiceCert(o: Oracle, p: Plan, s: Run, authority: Option<Authority>, task: CertTask): Run {
    if s.halt.Some? then s
    else if authority == None then Stop(s, Failed)
    else CreateIfMissing(o, p, s, task.key, CertSecret(o, s.w.clock + 1, p, authority.value, task))
  }

  // Secrets (controllers/horreum_controller.go:137-162, controllers/utils.go:40-52)

  function SecretManifest(o: Oracle, n: nat, task: SecretTask): Manifest {
    var data := map[USERNAME := Plain(task.key.name), PASSWORD := Plain(o.password(n))];
    SecretM(task.key, if task.withDbSecret then data[DBSECRET := Plain(o.dbSecret(n))] else data)
  }

  function SecretStep(o: Oracle, p: Plan, s: Run, task: SecretTask): Run {
    EnsureSame(o, p, s, SecretManifest(o, s.w.clock, task), HasKeys(NeededKeys(task))).0
  }

  // Routes (controllers/utils.go:80-148)

  function TlsFromSecret(termination: Termination, data: map<string, Blob>): TlsConfig {
    TlsConfig(termination, DataAt(data, TLSCERT), DataAt(data, TLSKEY), DataAt(data, CACERT))
  }

  const PASSTHROUGH := TlsConfig(PassthroughTermination, Plain(""), Plain(""), Plain(""))

  function RouteFor(task: RouteTask, tls: Option<TlsConfig>): Manifest {
    RouteM(task.key, task.host, task.subdomain, task.key.name, tls)
  }

  /* The route is None when routes are not available. */
  function BuildRoute(o: Oracle, p: Plan, s: Run, task: RouteTask): (Run, Option<Manifest>) {
    if s.halt.Some? then (s, None)
    else if !task.supported then (Stop(s, Failed), None)
    else if !p.routes then (s, None)
    else match task.tlsMode
      case NoTls => (s, Some(RouteFor(task, None)))
      case Passthrough => (s, Some(RouteFor(task, Some(PASSTHROUGH))))
      case Secured(termination) =>
        var (t, data) := ReadTlsSecret(o, p, s, task);
        (t, if t.halt.Some? then None else Some(RouteFor(task, Some(TlsFromSecret(termination, data)))))
      case BadType => (Stop(ReadTlsSecret(o, p, s, task).0, Failed), None)
  }

  function TlsKey(p: Plan, task: RouteTask): Key {
    Key(SecretKind, p.owner.ns, task.tlsSecret)
  }

  function ReadTlsSecret(o: Oracle, p: Plan, s: Run, task: RouteTask): (Run, map<string, Blob>) {
    if task.tlsSecret == "" then (s, map[])
    else
      var (w, fetch) := Get(o, s.w, TlsKey(p, task));
      var t := s.(w := w);
      match fetch
      case Died => (Stop(t, Crashed), map[])
      case Found(have) => (t, SecretData(have))
      case _ => (Quit(o, t, Error, CannotFindSecret(task.reported), Failed), map[])
  }

  // Public URLs (controllers/horreum_controller.go:192-225 and 250-282)

  function Decimal(n: nat): string {
    if n < 10 then ["0123456789"[n]] else Decimal(n / 10) + ["0123456789"[n % 10]]
  }

  function NodeUrl(host: string, port: nat): string {
    "https://" + host + ":" + Decimal(port)
  }

  function FindUrl(o: Oracle, p: Plan, s: Run, service: Manifest, access: Access, route: Option<Manifest>)
    : (Run, string)
  {
    var t := EnsureSame(o, p, s, service, SameService).0;
    if t.halt.Some? then (t, "")
    else match access
      case ByNodePort => NodePortUrl(o, p, t, service)
      case ByLoadBalancer => LoadBalancerUrl(o, t, service)
      case ByRoute => RoutedUrl(o, p, t, service, route)
      case Nowhere => (AwaitUrl(o, t, service), "")
  }

  function AwaitUrl(o: Oracle, s: Run, service: Manifest): Run {
    Quit(o, s, Pending, WaitingForUrl(service.key), Requeued)
  }

  function NodePortUrl(o: Oracle, p: Plan, s: Run, service: Manifest): (Run, string) {
    var (w, fetch) := Get(o, s.w, service.key);
    var t := s.(w := w);
    match fetch
    case Died => (Stop(t, Crashed), "")
    case Found(have) =>
      if !have.Service? || have.ports == [] then (Stop(t, Panicked(NoPorts)), "")
      else if have.ports[0].nodePort == 0 then
        (Quit(o, t, Pending, WaitingForNodePort(service.key), Requeued), "")
      else (t, NodeUrl(p.nodeHost, have.ports[0].nodePort))
    case _ => (Stop(t, Failed), "")
  }

  /* The error test is inverted: the service is looked at only when it could not be fetched. */
  function LoadBalancerUrl(o: Oracle, s: Run, service: Manifest): (Run, string) {
    var (w, fetch) := Get(o, s.w, service.key);
    var t := s.(w := w);
    match fetch
    case Died => (Stop(t, Crashed), "")
    case Found(_) => (AwaitUrl(o, t, service), "")
    case _ => (Stop(t, Panicked(NilService)), "")
  }

  function RoutedUrl(o: Oracle, p: Plan, s: Run, service: Manifest, route: Option<Manifest>): (Run, string) {
    if route == None then (Stop(s, Panicked(NilRoute)), "")
    else
      var (t, found) := EnsureSame(o, p, s, route.value, SameRoute);
      if t.halt.Some? then (t, "")
      else
        var url := if found.Some? then RouteUrl(found.value) else "";
        if url == "" then (AwaitUrl(o, t, service), "") else (t, url)
  }

  // The parts of Reconcile (controllers/horreum_controller.go:95-297)

  /* The part before the first object is touched. */
  function Prologue(o: Oracle, p: Plan, s: Run): Run {
    if p.hostMissing then Quit(o, s, Error, NodeHostMissing, Failed)
    else if s.st.phase != Ready then
      s.(st := s.st.(phase := Ready, reason := AdminPassword(p.adminSecret), lastUpdate := o.now(s.w.clock)))
    else s
  }

  function TrustPart(o: Oracle, p: Plan, s: Run): Run {
    if s.halt.Some? then s
    else if p.routes then EnsureSame(o, p, s, TrustManifest(p), Exists).0
    else
      var (s1, authority) := CreateCA(o, p, s);
      var s2 := CreateServiceCert(o, p, s1, authority, p.appCert);
      CreateServiceCert(o, p, s2, authority, p.keycloakCert)
  }

  function SecretsPart(o: Oracle, p: Plan, s: Run): Run {
    var s1 := SecretStep(o, p, s, p.dbAdmin);
    var s2 := SecretStep(o, p, s1, p.appUser);
    var s3 := SecretStep(o, p, s2, p.keycloakAdmin);
    var s4 := SecretStep(o, p, s3, p.keycloakDb);
    SecretStep(o, p, s4, p.admin)
  }

  function PostgresPart(o: Oracle, p: Plan, s: Run): Run {
    if p.postgres then
      var s1 := EnsureSame(o, p, s, p.postgresMap, SameData).0;
      var s2 := EnsureSame(o, p, s1, p.postgresPod, SamePod).0;
      EnsureSame(o, p, s2, p.postgresService, SameService).0
    else
      var s1 := EnsureDeleted(o, s, p.postgresPod.key);
      EnsureDeleted(o, s1, p.postgresService.key)
  }

  function KeycloakUrl(o: Oracle, p: Plan, s: Run, route: Option<Manifest>): (Run, string) {
    if s.halt.Some? || p.keycloakUri != "" then (s, p.keycloakUri)
    else FindUrl(o, p, s, p.keycloakService, p.keycloakAccess, route)
  }

  function KeycloakPart(o: Oracle, p: Plan, s: Run, url: string): Run {
    if s.halt.Some? then s
    else
      var t := s.(st := s.st.(keycloakUrl := url));
      var pod := p.keycloakPod(url);
      if pod == None then Stop(t, Panicked(NilPod))
      else if p.keycloakUri == "" then EnsureSame(o, p, t, pod.value, SamePod).0
      else
        var s1 := EnsureDeleted(o, t, p.keycloakPodKey);
        var s2 := EnsureDeleted(o, s1, p.keycloakService.key);
        if p.routes then EnsureDeleted(o, s2, p.keycloakRoute.key) else s2
  }

  function AppPart(o: Oracle, p: Plan, s: Run, keycloakUrl: string, url: string): Run {
    if s.halt.Some? then s
    else
      var t := s.(st := s.st.(publicUrl := url));
      EnsureSame(o, p, t, p.appPod(keycloakUrl, url), SamePod).0
  }

  function Finish(o: Oracle, p: Plan, s: Run): Run {
    var t := EnsureSame(o, p, s, p.upload, Exists).0;
    if t.halt.Some? then t
    else
      var (w, ack) := StoreStatus(o, t.w, t.st);
      Stop(t.(w := w), if ack == Gone then Crashed else Finished)
  }

  /* One pass of Reconcile over a resource that was read. */
  function Execute(o: Oracle, p: Plan, s: Run): Run {
    var s0 := Prologue(o, p, s);
    var s1 := TrustPart(o, p, s0);
    var s2 := SecretsPart(o, p, s1);
    var s3 := PostgresPart(o, p, s2);
    var (s4, keycloakRoute) := BuildRoute(o, p, s3, p.keycloakRoute);
    var (s5, keycloakUrl) := KeycloakUrl(o, p, s4, keycloakRoute);
    var s6 := KeycloakPart(o, p, s5, keycloakUrl);
    var (s7, appRoute) := BuildRoute(o, p, s6, p.appRoute);
    var (s8, url) := FindUrl(o, p, s7, p.appService, p.appAccess, appRoute);
    var s9 := AppPart(o, p, s8, keycloakUrl, url);
    Finish(o, p, s9)
  }
}
