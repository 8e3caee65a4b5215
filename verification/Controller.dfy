/**
  The operator in the form of its source: a cluster that is changed by API
  calls, an in-memory resource whose status is updated, and the reconciler's
  methods.  Each method is proved to do what the step of the same name in Steps
  says, so everything proved of the steps holds of it.

  A method that returns an error gives the verdict of the run instead; after
  Crashed nothing more is done, as the process is gone.
 */
module Controller {
  import opened Wrappers
  import opened Resources
  import opened HorreumApi
  import opened Matching
  import opened Comparing
  import opened Worlds
  import opened Plans
  import opened Steps
  import opened Builders
  import opened Reconciling
  import opened PodBuilding

  /* The API server, with the objects it stores. */
  class Cluster {
    const ns: string
    const oracle: Oracle
    var home: map<Key, Obj>
    var away: map<Key, Obj>
    var cr: Option<Horreum>
    var clock: nat
    ghost var log: seq<Event>

    ghost function State(): World
      reads this
    {
      World(ns, home, away, cr, clock, log)
    }

    constructor (ns: string, oracle: Oracle, home: map<Key, Obj>, away: map<Key, Obj>, cr: Option<Horreum>)
      ensures this.oracle == oracle && State() == World(ns, home, away, cr, 0, [])
    {
      this.ns, this.oracle, this.home, this.away, this.cr := ns, oracle, home, away, cr;
      clock, log := 0, [];
    }

    /* Other namespaces move on, and one more call is counted. */
    method Tick() returns (reply: Reply)
      modifies this
      ensures State() == Worlds.Tick(oracle, old(State())) && reply == oracle.reply(old(clock))
    {
      reply := oracle.reply(clock);
      away := oracle.foreign(clock);
      clock := clock + 1;
    }

    method Get(k: Key) returns (fetch: Fetch)
      modifies this
      ensures (State(), fetch) == Worlds.Get(oracle, old(State()), k)
    {
      var reply := Tick();
      if reply == Crash { return Died; }
      if reply != Ok { return Unavailable; }
      var objs := if k.ns == ns then home else away;
      return if k in objs then Found(objs[k]) else NotFound;
    }

    method GetResource() returns (reply: Reply, resource: Option<Horreum>)
      modifies this
      ensures State() == Worlds.Tick(oracle, old(State())) && reply == oracle.reply(old(clock)) && resource == cr
    {
      reply := Tick();
      resource := cr;
    }

    method Create(owner: Owner, m: Manifest) returns (ack: Ack)
      modifies this
      ensures (State(), ack) == Worlds.Create(oracle, old(State()), owner, m)
    {
      var n := clock;
      ghost var before := home;
      var reply := Tick();
      if reply == Crash { return Gone; }
      if reply == Refused || m.key in (if m.key.ns == ns then home else away) { return Denied; }
      var obj := Live(oracle, n, owner, m);
      if m.key.ns == ns { home := home[m.key := obj]; } else { away := away[m.key := obj]; }
      log := log + [Made(m, obj, before)];
      return if reply == Ok then Done else Denied;
    }

    method Delete(k: Key) returns (ack: Ack)
      modifies this
      ensures (State(), ack) == Worlds.Delete(oracle, old(State()), k)
    {
      ghost var before := home;
      var reply := Tick();
      if reply == Crash { return Gone; }
      if reply == Refused || k !in (if k.ns == ns then home else away) { return Denied; }
      if k.ns == ns { home := home - {k}; } else { away := away - {k}; }
      log := log + [Dropped(k, before)];
      return if reply == Ok then Done else Denied;
    }

    method StoreStatus(st: Status) returns (ack: Ack)
      modifies this
      ensures (State(), ack) == Worlds.StoreStatus(oracle, old(State()), st)
    {
      var reply := Tick();
      if reply == Crash { return Gone; }
      if reply == Refused || cr == None { return Denied; }
      cr := Some(cr.value.(status := st));
      return if reply == Ok then Done else Denied;
    }
  }

  /* The resource as the reconciler holds it in memory: what does not change
     during a run, without its status, and the status. */
  class Instance {
    const resource: Horreum
    var status: Status
    ghost var notes: seq<Note>

    constructor (resource: Horreum)
      ensures this.resource == resource.(status := NO_STATUS) && status == resource.status && notes == []
    {
      this.resource, status, notes := resource.(status := NO_STATUS), resource.status, [];
    }
  }

  class Reconciler {
    const env: Env
    const cluster: Cluster

    constructor (env: Env, cluster: Cluster)
      ensures this.env == env && this.cluster == cluster
    {
      this.env, this.cluster := env, cluster;
    }

    /* The state of a run as Steps knows it. */
    ghost function Now(cr: Instance, err: Option<Verdict>): Run
      reads cluster, cr
    {
      Run(cluster.State(), cr.status, cr.notes, err)
    }

    ghost function Wanted(cr: Instance): Plan {
      PlanFor(env, cr.resource)
    }

    // Status

    method SetStatus(cr: Instance, phase: Phase, reason: Reason)
      modifies cr
      ensures Now(cr, None) == Steps.SetStatus(cluster.oracle, old(Now(cr, None)), phase, reason)
    {
      var time := cluster.oracle.now(cluster.clock);
      cr.notes := cr.notes + [Note(phase, reason, time)];
      if cr.status.phase == Error && phase == Pending { return; }
      cr.status := cr.status.(phase := phase);
      cr.status := cr.status.(reason := reason);
      cr.status := cr.status.(lastUpdate := time);
    }

    /* updateStatus before a return: an error of the update itself is ignored. */
    method Quit(cr: Instance, phase: Phase, reason: Reason, verdict: Verdict) returns (err: Option<Verdict>)
      modifies cluster, cr
      ensures err.Some? && Now(cr, err) == Steps.Quit(cluster.oracle, old(Now(cr, None)), phase, reason, verdict)
    {
      SetStatus(cr, phase, reason);
      var ack := cluster.StoreStatus(cr.status);
      err := Some(if ack == Gone then Crashed else verdict);
    }

    // ensureSame and ensureDeleted

    method CreateObject(cr: Instance, want: Manifest) returns (err: Option<Verdict>)
      modifies cluster, cr
      ensures Now(cr, err) == CreateStep(cluster.oracle, Wanted(cr), old(Now(cr, None)), want)
    {
      hide PlanFor, Worlds.Create, Steps.Quit, Steps.SetStatus;
      OwnerOf(env, cr.resource);
      var ack := cluster.Create(Owner(cr.resource.ns, cr.resource.name), want);
      match ack
      case Gone => err := Some(Crashed);
      case Denied => err := Quit(cr, Error, CannotCreate(want.key), Failed);
      case Done =>
        SetStatus(cr, Pending, Creating(want.key));
        err := None;
    }

    method ReplaceObject(cr: Instance, want: Manifest) returns (err: Option<Verdict>)
      modifies cluster, cr
      ensures Now(cr, err) == ReplaceStep(cluster.oracle, Wanted(cr), old(Now(cr, None)), want)
    {
      hide PlanFor, CreateStep, Worlds.Delete, Steps.Quit;
      var ack := cluster.Delete(want.key);
      match ack
      case Gone => err := Some(Crashed);
      case Denied => err := Quit(cr, Error, CannotDelete(want.key), Failed);
      case Done => err := CreateObject(cr, want);
    }

    method CheckObject(cr: Instance, key: Key, mode: Mode, have: Obj)
      modifies cr
      ensures Now(cr, None) == CheckStep(cluster.oracle, old(Now(cr, None)), key, mode, have)
    {
      hide CheckProblem, Steps.SetStatus;
      var problem := Check(mode, key, have);
      if problem.Some? {
        SetStatus(cr, problem.value.phase, problem.value.reason);
      }
    }

    /* out is not fetched again after the object was replaced. */
    method EnsureSame(cr: Instance, want: Manifest, mode: Mode) returns (out: Option<Obj>, err: Option<Verdict>)
      modifies cluster, cr
      ensures (Now(cr, err), out) == Steps.EnsureSame(cluster.oracle, Wanted(cr), old(Now(cr, None)), want, mode)
    {
      hide PlanFor, CreateStep, ReplaceStep, CheckStep, Worlds.Get, Matches, Steps.Quit;
      out, err := None, None;
      var fetch := cluster.Get(want.key);
      match fetch
      case Died => err := Some(Crashed);
      case Unavailable => err := Quit(cr, Error, CannotFind(want.key), Failed);
      case NotFound => err := CreateObject(cr, want);
      case Found(have) =>
        out := Some(have);
        var same := Compare(mode, want, have);
        if same { CheckObject(cr, want.key, mode, have); } else { err := ReplaceObject(cr, want); }
    }

    method EnsureDeleted(cr: Instance, key: Key) returns (err: Option<Verdict>)
      modifies cluster, cr
      ensures Now(cr, err) == Steps.EnsureDeleted(cluster.oracle, old(Now(cr, None)), key)
    {
      hide PlanFor, Worlds.Get, Worlds.Delete, Steps.Quit;
      var fetch := cluster.Get(key);
      match fetch
      case Died => err := Some(Crashed);
      case NotFound => err := None;
      case Unavailable => err := Quit(cr, Error, CannotFind(key), Failed);
      case Found(_) =>
        var ack := cluster.Delete(key);
        match ack
        case Gone => err := Some(Crashed);
        case Denied => err := Quit(cr, Error, CannotDelete(key), Failed);
        case Done => err := None;
    }

    // controllers/certificates.go

    method MakeAuthority(cr: Instance) returns (authority: Option<Authority>, err: Option<Verdict>)
      modifies cluster, cr
      ensures (Now(cr, err), authority) == Steps.MakeAuthority(cluster.oracle, Wanted(cr), old(Now(cr, None)))
    {
      hide PlanFor, Worlds.Create, Steps.Quit, CaCertificate;
      PlanKeys(env, cr.resource);
      authority, err := None, None;
      var n := cluster.clock;
      var key := cluster.oracle.rsa(n);
      if key == None || !cluster.oracle.signs(n) { return None, Some(Failed); }
      var ca := CaCertificate(key.value);
      var data: map<string, Blob> := map[TLSKEY := KeyPem(key.value), TLSCERT := CertPem(ca)];
      var name := cr.resource.name + "-ca-certs";
      var ack := cluster.Create(Owner(cr.resource.ns, cr.resource.name), SecretM(SecretKey(cr.resource, name), data));
      match ack
      case Gone => err := Some(Crashed);
      case Denied => err := Quit(cr, Error, CannotCreateCaSecret, Failed);
      case Done => authority := Some(Authority(ca, key.value));
    }

    method LoadAuthority(cr: Instance) returns (authority: Option<Authority>, err: Option<Verdict>)
      modifies cluster, cr
      ensures (Now(cr, err), authority) == Steps.LoadAuthority(cluster.oracle, Wanted(cr), old(Now(cr, None)))
    {
      hide PlanFor, Worlds.Get, Steps.MakeAuthority, ReadAuthority;
      PlanKeys(env, cr.resource);
      authority, err := None, None;
      var fetch := cluster.Get(SecretKey(cr.resource, cr.resource.name + "-ca-certs"));
      match fetch
      case Died => err := Some(Crashed);
      case Unavailable => err := Some(Failed);
      case NotFound => authority, err := MakeAuthority(cr);
      case Found(have) =>
        authority := ReadAuthority(have);
        if authority == None { err := Some(Failed); }
    }

    /* The create that follows a Get that found nothing; errors set no status. */
    method CreateMissing(cr: Instance, made: Manifest) returns (err: Option<Verdict>)
      modifies cluster
      ensures var (w, ack) := Worlds.Create(cluster.oracle, old(cluster.State()), Wanted(cr).owner, made);
        cluster.State() == w &&
        err == match ack case Gone => Some(Crashed) case Denied => Some(Failed) case Done => None
    {
      hide PlanFor, Worlds.Create;
      OwnerOf(env, cr.resource);
      var ack := cluster.Create(Owner(cr.resource.ns, cr.resource.name), made);
      err := match ack case Gone => Some(Crashed) case Denied => Some(Failed) case Done => None;
    }

    method CreateCA(cr: Instance) returns (authority: Option<Authority>, err: Option<Verdict>)
      modifies cluster, cr
      ensures (Now(cr, err), authority) == Steps.CreateCA(cluster.oracle, Wanted(cr), old(Now(cr, None)))
    {
      hide PlanFor, Steps.LoadAuthority, Worlds.Get, Worlds.Create;
      PlanKeys(env, cr.resource);
      LoadEnds(cluster.oracle, Wanted(cr), Now(cr, None));
      authority, err := LoadAuthority(cr);
      if err.Some? { return; }
      var key := Key(ConfigMapKind, cr.resource.ns, SERVICE_CA);
      var fetch := cluster.Get(key);
      match fetch
      case Died => err := Some(Crashed);
      case Unavailable => err := Some(Failed);
      case Found(_) =>
      case NotFound =>
        var binary: map<string, Blob> := map[CABUNDLE := CertPem(authority.value.cert)];
        err := CreateMissing(cr, ConfigMapM(key, map[], binary));
    }

    method Sans(service: string, ns: string, nodeHost: string) returns (sans: seq<string>)
      ensures sans == ServiceSans(service, ns, nodeHost)
    {
      sans := [service + "." + ns + ".svc", service + "." + ns + ".svc.cluster.local",
               "*." + service + "." + ns + ".svc", "*." + service + "." + ns + ".svc.cluster.local"];
      if nodeHost != "" { sans := sans + [nodeHost]; }
    }

    method MakeCert(cr: Instance, authority: Authority, task: CertTask) returns (made: Option<Manifest>)
      ensures made == CertSecret(cluster.oracle, cluster.clock, Wanted(cr), authority, task)
    {
      hide PlanFor, ServiceSans;
      PlanKeys(env, cr.resource);
      var sans := Sans(task.service, cr.resource.ns, cr.resource.spec.nodeHost);
      var key := cluster.oracle.rsa(cluster.clock);
      if key == None || !cluster.oracle.signs(cluster.clock) { return None; }
      var cert := Certificate(task.serial, task.service, DnsNames(sans), false, key.value.public, authority.key.public);
      return Some(SecretM(task.key, map[TLSCERT := CertPem(cert), TLSKEY := KeyPem(key.value)]));
    }

    method CreateServiceCert(cr: Instance, authority: Option<Authority>, task: CertTask) returns (err: Option<Verdict>)
      modifies cluster
      ensures Now(cr, err) == Steps.CreateServiceCert(cluster.oracle, Wanted(cr), old(Now(cr, None)), authority, task)
    {
      hide PlanFor, CertSecret, Worlds.Get, Worlds.Create;
      err := None;
      if authority == None { return Some(Failed); }
      ClockTicks(cluster.oracle, cluster.State(), task.key);
      var fetch := cluster.Get(task.key);
      match fetch
      case Died => err := Some(Crashed);
      case Unavailable => err := Some(Failed);
      case Found(_) =>
      case NotFound =>
        var made := MakeCert(cr, authority.value, task);
        if made == None { return Some(Failed); }
        err := CreateMissing(cr, made.value);
    }

    method TrustPart(cr: Instance) returns (err: Option<Verdict>)
      modifies cluster, cr
      ensures Now(cr, err) == Steps.TrustPart(cluster.oracle, Wanted(cr), old(Now(cr, None)))
    {
      hide PlanFor, Steps.CreateCA, Steps.CreateServiceCert, Steps.EnsureSame;
      PlanKeys(env, cr.resource);
      var name := cr.resource.name;
      if env.routes {
        var out;
        out, err := EnsureSame(cr, ConfigMapM(Key(ConfigMapKind, cr.resource.ns, SERVICE_CA), map[], map[]), Exists);
        return;
      }
      ghost var o, p := cluster.oracle, Wanted(cr);
      var authority;
      authority, err := CreateCA(cr);
      HaltedCerts(o, p, Now(cr, err), authority);
      if err.Some? { return; }
      err := CreateServiceCert(cr, authority, CertTask(SecretKey(cr.resource, name + "-app-certs"), name, 1000));
      HaltedCerts(o, p, Now(cr, err), authority);
      if err.Some? { return; }
      err := CreateServiceCert(
        cr, authority, CertTask(SecretKey(cr.resource, name + "-keycloak-certs"), name + "-keycloak", 2000));
    }

    // Secrets

    method NewSecret(cr: Instance, name: string) returns (secret: Manifest)
      ensures secret == SecretManifest(cluster.oracle, cluster.clock, SecretTask(SecretKey(cr.resource, name), false))
    {
      var data: map<string, Blob> := map[USERNAME := Plain(name)];
      data := data[PASSWORD := Plain(cluster.oracle.password(cluster.clock))];
      secret := SecretM(SecretKey(cr.resource, name), data);
    }

    method EnsureSecret(cr: Instance, name: string, withDbSecret: bool) returns (err: Option<Verdict>)
      modifies cluster, cr
      ensures Now(cr, err) == SecretStep(
        cluster.oracle, Wanted(cr), old(Now(cr, None)), SecretTask(SecretKey(cr.resource, name), withDbSecret))
    {
      hide PlanFor, Steps.EnsureSame;
      var secret := NewSecret(cr, name);
      var keys := [USERNAME, PASSWORD];
      if withDbSecret {
        secret := secret.(data := secret.data[DBSECRET := Plain(cluster.oracle.dbSecret(cluster.clock))]);
        keys := keys + [DBSECRET];
      }
      ghost var task := SecretTask(SecretKey(cr.resource, name), withDbSecret);
      assert keys == NeededKeys(task) && secret == SecretManifest(cluster.oracle, cluster.clock, task);
      var out;
      out, err := EnsureSame(cr, secret, HasKeys(keys));
    }

    method SecretsPart(cr: Instance) returns (err: Option<Verdict>)
      modifies cluster, cr
      ensures Now(cr, err) == Steps.SecretsPart(cluster.oracle, Wanted(cr), old(Now(cr, None)))
    {
      hide PlanFor, SecretStep;
      hide DbAdminSecret, AppUserSecret, KeycloakAdminSecret, KeycloakDbSecret, HorreumAdminSecret;
      PlanSecrets(env, cr.resource);
      ghost var o, p := cluster.oracle, Wanted(cr);
      err := EnsureSecret(cr, DbAdminSecret(cr.resource), false);
      HaltedSecrets(o, p, Now(cr, err));
      if err.Some? { return; }
      err := EnsureSecret(cr, AppUserSecret(cr.resource), true);
      HaltedSecrets(o, p, Now(cr, err));
      if err.Some? { return; }
      err := EnsureSecret(cr, KeycloakAdminSecret(cr.resource), false);
      HaltedSecrets(o, p, Now(cr, err));
      if err.Some? { return; }
      err := EnsureSecret(cr, KeycloakDbSecret(cr.resource), false);
      HaltedSecrets(o, p, Now(cr, err));
      if err.Some? { return; }
      err := EnsureSecret(cr, HorreumAdminSecret(cr.resource), false);
    }

    // Postgres

    method PostgresPart(cr: Instance) returns (err: Option<Verdict>)
      modifies cluster, cr
      ensures Now(cr, err) == Steps.PostgresPart(cluster.oracle, Wanted(cr), old(Now(cr, None)))
    {
      hide PlanFor, Steps.EnsureSame, Steps.EnsureDeleted, PostgresPod, PostgresConfigMap, PostgresService;
      PlanPostgres(env, cr.resource);
      ghost var o, p := cluster.oracle, Wanted(cr);
      var pod := BuildPostgresPod(cr.resource, env.redHat);
      var service := PostgresService(cr.resource);
      if cr.resource.spec.postgres.enabled == Some(false) {
        err := EnsureDeleted(cr, pod.key);
        HaltedSteps(o, p, Now(cr, err));
        if err.Some? { return; }
        err := EnsureDeleted(cr, service.key);
      } else {
        var out;
        out, err := EnsureSame(cr, PostgresConfigMap(cr.resource), SameData);
        HaltedSteps(o, p, Now(cr, err));
        if err.Some? { return; }
        out, err := EnsureSame(cr, pod, SamePod);
        HaltedSteps(o, p, Now(cr, err));
        if err.Some? { return; }
        out, err := EnsureSame(cr, service, SameService);
      }
    }

    // Routes (controllers/utils.go:80-148)

    method ReadTls(cr: Instance, reported: string) returns (data: map<string, Blob>, err: Option<Verdict>)
      modifies cluster, cr
      ensures forall task: RouteTask | task.tlsSecret == cr.resource.spec.route.tls && task.reported == reported ::
        (Now(cr, err), data) == ReadTlsSecret(cluster.oracle, Wanted(cr), old(Now(cr, None)), task)
    {
      hide PlanFor, Worlds.Get, Steps.Quit;
      OwnerOf(env, cr.resource);
      data, err := map[], None;
      if cr.resource.spec.route.tls != "" {
        var fetch := cluster.Get(SecretKey(cr.resource, cr.resource.spec.route.tls));
        match fetch
        case Died => err := Some(Crashed);
        case Found(have) => data := SecretData(have);
        case NotFound => err := Quit(cr, Error, CannotFindSecret(reported), Failed);
        case Unavailable => err := Quit(cr, Error, CannotFindSecret(reported), Failed);
      }
    }

    /* tls looks at the application's route, whatever route it is called for. */
    method Tls(cr: Instance, reported: string) returns (tls: Option<TlsConfig>, err: Option<Verdict>)
      modifies cluster, cr
      ensures forall task: RouteTask |
          task.tlsSecret == cr.resource.spec.route.tls && task.reported == reported && task.supported &&
          task.tlsMode == TlsModeOf(cr.resource.spec.route.kind) && env.routes ::
        Steps.BuildRoute(cluster.oracle, Wanted(cr), old(Now(cr, None)), task) ==
        (Now(cr, err), if err.Some? then None else Some(RouteFor(task, tls)))
    {
      hide PlanFor, ReadTlsSecret, DataAt;
      OwnerOf(env, cr.resource);
      RoutesOf(env, cr.resource);
      tls, err := None, None;
      var kind := cr.resource.spec.route.kind;
      if kind == "http" { return; }
      if kind == "passthrough" { return Some(PASSTHROUGH), None; }
      var data;
      data, err := ReadTls(cr, reported);
      ReadKeepsHalt(cluster.oracle, Wanted(cr), old(Now(cr, None)));
      if err.Some? { return; }
      if kind == "edge" {
        tls := Some(TlsConfig(EdgeTermination, DataAt(data, TLSCERT), DataAt(data, TLSKEY), DataAt(data, CACERT)));
      } else if kind == "reencrypt" || kind == "" {
        tls := Some(TlsConfig(ReencryptTermination, DataAt(data, TLSCERT), DataAt(data, TLSKEY), DataAt(data, CACERT)));
      } else {
        err := Some(Failed);
      }
    }

    method BuildRoute(cr: Instance, route: RouteSpec, suffix: string, supported: bool)
      returns (built: Option<Manifest>, err: Option<Verdict>)
      modifies cluster, cr
      ensures (Now(cr, err), built) ==
        Steps.BuildRoute(cluster.oracle, Wanted(cr), old(Now(cr, None)),
                         RouteTaskFor(cr.resource, route, suffix, supported))
    {
      hide PlanFor, ReadTlsSecret, TlsFromSecret;
      RoutesOf(env, cr.resource);
      built, err := None, None;
      if !supported { return None, Some(Failed); }
      if !env.routes { return; }
      var subdomain := "";
      var name := cr.resource.name + suffix;
      if route.host == "" { subdomain := name; }
      ghost var task := RouteTaskFor(cr.resource, route, suffix, true);
      var tls;
      tls, err := Tls(cr, route.tls);
      assert Steps.BuildRoute(cluster.oracle, Wanted(cr), old(Now(cr, None)), task) ==
        (Now(cr, err), if err.Some? then None else Some(RouteFor(task, tls)));
      if err == None {
        built := Some(RouteM(Key(RouteKind, cr.resource.ns, name), route.host, subdomain, name, tls));
      }
    }

    // Public URLs

    method WaitForUrl(cr: Instance, service: Manifest) returns (err: Option<Verdict>)
      modifies cluster, cr
      ensures Now(cr, err) == AwaitUrl(cluster.oracle, old(Now(cr, None)), service)
    {
      hide Steps.Quit;
      err := Quit(cr, Pending, WaitingForUrl(service.key), Requeued);
    }

    /* getNodePort, and what becomes of its result. */
    method NodePortUrl(cr: Instance, service: Manifest) returns (url: string, err: Option<Verdict>)
      modifies cluster, cr
      ensures (Now(cr, err), url) == Steps.NodePortUrl(cluster.oracle, Wanted(cr), old(Now(cr, None)), service)
    {
      hide PlanFor, Worlds.Get, Steps.Quit, NodeUrl;
      PlanKeys(env, cr.resource);
      url, err := "", None;
      var fetch := cluster.Get(service.key);
      match fetch
      case Died => err := Some(Crashed);
      case NotFound => err := Some(Failed);
      case Unavailable => err := Some(Failed);
      case Found(have) =>
        if !have.Service? || have.ports == [] { return "", Some(Panicked(NoPorts)); }
        var nodePort := have.ports[0].nodePort;
        if nodePort == 0 {
          err := Quit(cr, Pending, WaitingForNodePort(service.key), Requeued);
        } else {
          url := NodeUrl(cr.resource.spec.nodeHost, nodePort);
        }
    }

    /* getLoadBalancer, with its test of the error inverted. */
    method LoadBalancerUrl(cr: Instance, service: Manifest) returns (url: string, err: Option<Verdict>)
      modifies cluster, cr
      ensures (Now(cr, err), url) == Steps.LoadBalancerUrl(cluster.oracle, old(Now(cr, None)), service)
    {
      hide PlanFor, Worlds.Get, AwaitUrl;
      url, err := "", None;
      var fetch := cluster.Get(service.key);
      match fetch
      case Died => err := Some(Crashed);
      case NotFound => err := Some(Panicked(NilService));
      case Unavailable => err := Some(Panicked(NilService));
      case Found(_) => err := WaitForUrl(cr, service);
    }

    method RoutedUrl(cr: Instance, service: Manifest, route: Option<Manifest>)
      returns (url: string, err: Option<Verdict>)
      modifies cluster, cr
      ensures (Now(cr, err), url) == Steps.RoutedUrl(cluster.oracle, Wanted(cr), old(Now(cr, None)), service, route)
    {
      hide PlanFor, Steps.EnsureSame, AwaitUrl, RouteUrl;
      url, err := "", None;
      if route == None { return "", Some(Panicked(NilRoute)); }
      var foundRoute;
      foundRoute, err := EnsureSame(cr, route.value, SameRoute);
      if err.Some? { return; }
      if foundRoute.Some? { url := RouteUrl(foundRoute.value); }
      if url == "" { err := WaitForUrl(cr, service); }
    }

    method FindUrl(cr: Instance, service: Manifest, serviceType: string, route: Option<Manifest>)
      returns (url: string, err: Option<Verdict>)
      modifies cluster, cr
      ensures (Now(cr, err), url) ==
        Steps.FindUrl(cluster.oracle, Wanted(cr), old(Now(cr, None)), service, AccessOf(serviceType, env.routes), route)
    {
      hide PlanFor, Steps.EnsureSame, AwaitUrl, Steps.NodePortUrl, Steps.LoadBalancerUrl, Steps.RoutedUrl;
      url := "";
      var out;
      out, err := EnsureSame(cr, service, SameService);
      if err.Some? { return; }
      if IsNodePort(serviceType, env.routes) {
        url, err := NodePortUrl(cr, service);
      } else if serviceType == "LoadBalancer" {
        url, err := LoadBalancerUrl(cr, service);
      } else if env.routes {
        url, err := RoutedUrl(cr, service, route);
      } else {
        err := WaitForUrl(cr, service);
      }
    }

    // Keycloak

    method KeycloakUrl(cr: Instance, route: Option<Manifest>) returns (url: string, err: Option<Verdict>)
      modifies cluster, cr
      ensures (Now(cr, err), url) == Steps.KeycloakUrl(cluster.oracle, Wanted(cr), old(Now(cr, None)), route)
    {
      hide PlanFor, Steps.FindUrl, KeycloakService;
      PlanKeycloak(env, cr.resource);
      url, err := cr.resource.spec.keycloak.external.publicUri, None;
      if url == "" {
        url, err := FindUrl(
          cr, KeycloakService(cr.resource, env.routes), cr.resource.spec.keycloak.serviceType, route);
      }
    }

    method KeycloakPart(cr: Instance, url: string) returns (err: Option<Verdict>)
      modifies cluster, cr
      ensures Now(cr, err) == Steps.KeycloakPart(cluster.oracle, Wanted(cr), old(Now(cr, None)), url)
    {
      hide PlanFor, Steps.EnsureSame, Steps.EnsureDeleted, KeycloakService, KeycloakPod;
      PlanKeycloak(env, cr.resource);
      ghost var o, p := cluster.oracle, Wanted(cr);
      cr.status := cr.status.(keycloakUrl := url);
      var pod := BuildKeycloakPod(env, cr.resource, url);
      if pod == None { return Some(Panicked(NilPod)); }
      if cr.resource.spec.keycloak.external.publicUri == "" {
        var out;
        out, err := EnsureSame(cr, pod.value, SamePod);
        return;
      }
      KeycloakPodName(env, cr.resource, url);
      err := EnsureDeleted(cr, pod.value.key);
      HaltedSteps(o, p, Now(cr, err));
      if err.Some? { return; }
      err := EnsureDeleted(cr, KeycloakService(cr.resource, env.routes).key);
      HaltedSteps(o, p, Now(cr, err));
      if err.Some? { return; }
      if env.routes {
        err := EnsureDeleted(cr, Key(RouteKind, cr.resource.ns, cr.resource.name + "-keycloak"));
      }
    }

    // The application

    method AppPart(cr: Instance, keycloakUrl: string, url: string) returns (err: Option<Verdict>)
      modifies cluster, cr
      ensures Now(cr, err) == Steps.AppPart(cluster.oracle, Wanted(cr), old(Now(cr, None)), keycloakUrl, url)
    {
      hide PlanFor, Steps.EnsureSame, AppPod;
      PlanApp(env, cr.resource);
      cr.status := cr.status.(publicUrl := url);
      var pod := BuildAppPod(cr.resource, keycloakUrl, url);
      var out;
      out, err := EnsureSame(cr, pod, SamePod);
    }

    method Finish(cr: Instance) returns (err: Option<Verdict>)
      modifies cluster, cr
      ensures err.Some? && Now(cr, err) == Steps.Finish(cluster.oracle, Wanted(cr), old(Now(cr, None)))
    {
      hide PlanFor, Steps.EnsureSame, Worlds.StoreStatus, UploadConfig;
      PlanApp(env, cr.resource);
      var out;
      out, err := EnsureSame(cr, UploadConfig(cr.resource), Exists);
      if err.Some? { return; }
      var ack := cluster.StoreStatus(cr.status);
      err := Some(if ack == Gone then Crashed else Finished);
    }

    // Reconcile

    method Prologue(cr: Instance) returns (err: Option<Verdict>)
      modifies cluster, cr
      ensures Now(cr, err) == Steps.Prologue(cluster.oracle, Wanted(cr), old(Now(cr, None)))
    {
      hide PlanFor, Steps.Quit, HorreumAdminSecret;
      PlanStart(env, cr.resource);
      err := None;
      var spec := cr.resource.spec;
      if spec.nodeHost == "" &&
         (IsNodePort(spec.serviceType, env.routes) || IsNodePort(spec.keycloak.serviceType, env.routes))
      {
        err := Quit(cr, Error, NodeHostMissing, Failed);
        return;
      }
      if cr.status.phase != Ready {
        var adminSecret := HorreumAdminSecret(cr.resource);
        cr.status := cr.status.(phase := Ready);
        cr.status := cr.status.(reason := AdminPassword(adminSecret));
        cr.status := cr.status.(lastUpdate := cluster.oracle.now(cluster.clock));
      }
    }

    /* Up to the point where Keycloak's route has been built. */
    method FirstHalf(cr: Instance) returns (route: Option<Manifest>, err: Option<Verdict>)
      modifies cluster, cr
      ensures var o, p, s := cluster.oracle, Wanted(cr), old(Now(cr, None));
        var s3 := Steps.PostgresPart(o, p, Steps.SecretsPart(o, p, Steps.TrustPart(o, p, Steps.Prologue(o, p, s))));
        (Now(cr, err), route) == Steps.BuildRoute(o, p, s3, p.keycloakRoute)
    {
      hide PlanFor, Steps.Prologue, Steps.TrustPart, Steps.SecretsPart, Steps.PostgresPart, Steps.BuildRoute;
      hide KeycloakService;
      PlanKeycloak(env, cr.resource);
      ghost var o, p := cluster.oracle, Wanted(cr);
      route := None;
      err := Prologue(cr);
      HaltedParts(o, p, Now(cr, err));
      if err.Some? { return; }
      err := TrustPart(cr);
      HaltedParts(o, p, Now(cr, err));
      if err.Some? { return; }
      err := SecretsPart(cr);
      HaltedParts(o, p, Now(cr, err));
      if err.Some? { return; }
      err := PostgresPart(cr);
      HaltedParts(o, p, Now(cr, err));
      if err.Some? { return; }
      var keycloakRoute := cr.resource.spec.keycloak.route;
      var kind := keycloakRoute.kind;
      var supported := !(kind != "passthrough" && kind != "reencrypt" && kind != "");
      route, err := BuildRoute(cr, keycloakRoute, "-keycloak", supported);
    }

    method SecondHalf(cr: Instance, route: Option<Manifest>) returns (err: Option<Verdict>)
      modifies cluster, cr
      ensures err.Some?
      ensures var o, p, s := cluster.oracle, Wanted(cr), old(Now(cr, None));
        var (s5, keycloakUrl) := Steps.KeycloakUrl(o, p, s, route);
        var (s7, appRoute) := Steps.BuildRoute(o, p, Steps.KeycloakPart(o, p, s5, keycloakUrl), p.appRoute);
        var (s8, url) := Steps.FindUrl(o, p, s7, p.appService, p.appAccess, appRoute);
        Now(cr, err) == Steps.Finish(o, p, Steps.AppPart(o, p, s8, keycloakUrl, url))
    {
      hide PlanFor, Steps.KeycloakUrl, Steps.KeycloakPart, Steps.BuildRoute, Steps.FindUrl, Steps.AppPart, Steps.Finish;
      hide AppService, AppRoute;
      PlanApp(env, cr.resource);
      ghost var o, p := cluster.oracle, Wanted(cr);
      var keycloakUrl, appRoute, url;
      keycloakUrl, err := KeycloakUrl(cr, route);
      HaltedParts(o, p, Now(cr, err));
      if err.Some? { return; }
      err := KeycloakPart(cr, keycloakUrl);
      HaltedParts(o, p, Now(cr, err));
      if err.Some? { return; }
      appRoute, err := BuildRoute(cr, cr.resource.spec.route, "", true);
      HaltedParts(o, p, Now(cr, err));
      if err.Some? { return; }
      url, err := FindUrl(cr, AppService(cr.resource, env.routes), cr.resource.spec.serviceType, appRoute);
      HaltedParts(o, p, Now(cr, err));
      if err.Some? { return; }
      err := AppPart(cr, keycloakUrl, url);
      HaltedParts(o, p, Now(cr, err));
      if err.Some? { return; }
      err := Finish(cr);
    }

    /** One call of Reconcile does to the cluster what Reconciling says, and ends
        the way it says. */
    method Reconcile() returns (verdict: Verdict)
      modifies cluster
      ensures var t := Reconciling.Reconcile(cluster.oracle, env, old(cluster.State()));
        cluster.State() == t.w && t.halt == Some(verdict)
    {
      hide PlanFor, Steps.Execute;
      var reply, resource := cluster.GetResource();
      if reply == Crash { return Crashed; }
      if reply != Ok { return Failed; }
      if resource == None { return Ignored; }
      var cr := new Instance(resource.value);
      var err := Execute(cr);
      verdict := err.value;
    }

    method Execute(cr: Instance) returns (err: Option<Verdict>)
      modifies cluster, cr
      ensures err.Some? && Now(cr, err) == Steps.Execute(cluster.oracle, Wanted(cr), old(Now(cr, None)))
    {
      hide PlanFor, Steps.Prologue, Steps.TrustPart, Steps.SecretsPart, Steps.PostgresPart, Steps.BuildRoute;
      hide Steps.KeycloakUrl, Steps.KeycloakPart, Steps.FindUrl, Steps.AppPart, Steps.Finish;
      var route;
      route, err := FirstHalf(cr);
      HaltedParts(cluster.oracle, Wanted(cr), Now(cr, err));
      if err.Some? { return; }
      err := SecondHalf(cr, route);
    }
  }

  lemma PlanStart(env: Env, cr: Horreum)
    ensures var p := PlanFor(env, cr);
      && p.adminSecret == HorreumAdminSecret(cr)
      && p.hostMissing == (cr.spec.nodeHost == "" &&
           (IsNodePort(cr.spec.serviceType, env.routes) || IsNodePort(cr.spec.keycloak.serviceType, env.routes)))
  {
    hide PostgresPod, PostgresConfigMap, PostgresService, KeycloakPod, KeycloakService, KeycloakRoute;
    hide AppPod, AppService, AppRoute, UploadConfig;
    hide DbAdminSecret, AppUserSecret, KeycloakAdminSecret, KeycloakDbSecret, HorreumAdminSecret;
  }

  lemma PlanKeycloak(env: Env, cr: Horreum)
    ensures var p := PlanFor(env, cr);
      && p.keycloakUri == cr.spec.keycloak.external.publicUri && p.routes == env.routes
      && p.keycloakService == KeycloakService(cr, env.routes)
      && p.keycloakAccess == AccessOf(cr.spec.keycloak.serviceType, env.routes)
      && p.keycloakRoute ==
           RouteTaskFor(cr, cr.spec.keycloak.route, "-keycloak", ServesTls(cr.spec.keycloak.route.kind))
      && p.keycloakPodKey == Key(PodKind, cr.ns, cr.name + "-keycloak")
      && forall u: string :: p.keycloakPod(u) == KeycloakPod(env, cr, u)
  {
    hide PostgresPod, PostgresConfigMap, PostgresService, KeycloakPod, KeycloakService;
    hide AppPod, AppService, AppRoute, UploadConfig;
    hide DbAdminSecret, AppUserSecret, KeycloakAdminSecret, KeycloakDbSecret, HorreumAdminSecret;
  }

  lemma KeycloakPodName(env: Env, cr: Horreum, url: string)
    ensures KeycloakPod(env, cr, url).Some? ==>
      KeycloakPod(env, cr, url).value.key == Key(PodKind, cr.ns, cr.name + "-keycloak")
  {
    hide KeycloakPodSpec;
  }

  lemma PlanApp(env: Env, cr: Horreum)
    ensures var p := PlanFor(env, cr);
      && p.appService == AppService(cr, env.routes) && p.appAccess == AccessOf(cr.spec.serviceType, env.routes)
      && p.appRoute == RouteTaskFor(cr, cr.spec.route, "", true)
      && p.upload == UploadConfig(cr)
      && forall u: string, v: string :: p.appPod(u, v) == AppPod(cr, u, v)
  {
    hide PostgresPod, PostgresConfigMap, PostgresService, KeycloakPod, KeycloakService, KeycloakRoute;
    hide AppPod, AppService, UploadConfig;
    hide DbAdminSecret, AppUserSecret, KeycloakAdminSecret, KeycloakDbSecret, HorreumAdminSecret;
  }

  /* Every part leaves a run that is over as it is. */
  lemma HaltedParts(o: Oracle, p: Plan, s: Run)
    ensures s.halt.Some? ==>
      && Steps.TrustPart(o, p, s) == s && Steps.SecretsPart(o, p, s) == s && Steps.PostgresPart(o, p, s) == s
      && (forall task: RouteTask :: Steps.BuildRoute(o, p, s, task) == (s, None))
      && (forall route: Option<Manifest> :: Steps.KeycloakUrl(o, p, s, route).0 == s)
      && (forall url: string :: Steps.KeycloakPart(o, p, s, url) == s)
    ensures s.halt.Some? ==>
      && (forall route: Option<Manifest> :: Steps.FindUrl(o, p, s, p.appService, p.appAccess, route).0 == s)
      && (forall u: string, v: string :: Steps.AppPart(o, p, s, u, v) == s)
      && Steps.Finish(o, p, s) == s
  {
  }

  lemma PlanSecrets(env: Env, cr: Horreum)
    ensures var p := PlanFor(env, cr);
      && p.dbAdmin == SecretTask(SecretKey(cr, DbAdminSecret(cr)), false)
      && p.appUser == SecretTask(SecretKey(cr, AppUserSecret(cr)), true)
      && p.keycloakAdmin == SecretTask(SecretKey(cr, KeycloakAdminSecret(cr)), false)
      && p.keycloakDb == SecretTask(SecretKey(cr, KeycloakDbSecret(cr)), false)
      && p.admin == SecretTask(SecretKey(cr, HorreumAdminSecret(cr)), false)
  {
    hide PostgresPod, PostgresConfigMap, PostgresService, KeycloakPod, KeycloakService, KeycloakRoute;
    hide AppPod, AppService, AppRoute, UploadConfig;
    hide DbAdminSecret, AppUserSecret, KeycloakAdminSecret, KeycloakDbSecret, HorreumAdminSecret;
  }

  lemma PlanPostgres(env: Env, cr: Horreum)
    ensures var p := PlanFor(env, cr);
      && p.postgres == (cr.spec.postgres.enabled != Some(false))
      && p.postgresMap == PostgresConfigMap(cr) && p.postgresPod == PostgresPod(cr, env.redHat)
      && p.postgresService == PostgresService(cr)
  {
    hide PostgresPod, PostgresConfigMap, PostgresService, KeycloakPod, KeycloakService, KeycloakRoute;
    hide AppPod, AppService, AppRoute, UploadConfig;
    hide DbAdminSecret, AppUserSecret, KeycloakAdminSecret, KeycloakDbSecret, HorreumAdminSecret;
  }

  lemma RoutesOf(env: Env, cr: Horreum)
    ensures PlanFor(env, cr).routes == env.routes
  {
    PlanKeys(env, cr);
  }

  lemma HaltedSecrets(o: Oracle, p: Plan, s: Run)
    ensures s.halt.Some? ==> forall task: SecretTask :: SecretStep(o, p, s, task) == s
  {
  }

  lemma HaltedSteps(o: Oracle, p: Plan, s: Run)
    ensures s.halt.Some? ==> forall want: Manifest, mode: Mode :: Steps.EnsureSame(o, p, s, want, mode) == (s, None)
    ensures s.halt.Some? ==> forall k: Key :: Steps.EnsureDeleted(o, s, k) == s
  {
  }

  lemma ReadKeepsHalt(o: Oracle, p: Plan, s: Run)
    requires s.halt == None
    ensures forall task: RouteTask ::
      var (t, data) := ReadTlsSecret(o, p, s, task); t.halt.Some? ==> Stop(t, Failed) == t
  {
  }

  lemma OwnerOf(env: Env, cr: Horreum)
    ensures PlanFor(env, cr).owner == Owner(cr.ns, cr.name)
  {
    hide PostgresPod, PostgresConfigMap, PostgresService, KeycloakPod, KeycloakService, KeycloakRoute;
    hide AppPod, AppService, AppRoute, UploadConfig;
    hide DbAdminSecret, AppUserSecret, KeycloakAdminSecret, KeycloakDbSecret, HorreumAdminSecret;
  }

  lemma PlanKeys(env: Env, cr: Horreum)
    ensures var p := PlanFor(env, cr);
      && p.owner == Owner(cr.ns, cr.name) && p.nodeHost == cr.spec.nodeHost && p.routes == env.routes
      && p.caKey == SecretKey(cr, cr.name + "-ca-certs") && p.trustKey == Key(ConfigMapKind, cr.ns, SERVICE_CA)
      && p.appCert == CertTask(SecretKey(cr, cr.name + "-app-certs"), cr.name, 1000)
      && p.keycloakCert == CertTask(SecretKey(cr, cr.name + "-keycloak-certs"), cr.name + "-keycloak", 2000)
  {
    hide PostgresPod, PostgresConfigMap, PostgresService, KeycloakPod, KeycloakService, KeycloakRoute;
    hide AppPod, AppService, AppRoute, UploadConfig;
    hide DbAdminSecret, AppUserSecret, KeycloakAdminSecret, KeycloakDbSecret, HorreumAdminSecret;
  }

  lemma ClockTicks(o: Oracle, w: World, k: Key)
    ensures Worlds.Get(o, w, k).0.clock == w.clock + 1
  {
  }

  lemma LoadEnds(o: Oracle, p: Plan, s: Run)
    requires s.halt == None
    ensures var (t, authority) := Steps.LoadAuthority(o, p, s); t.halt == None <==> authority.Some?
  {
    hide ReadAuthority, CaCertificate, Live;
  }

  lemma HaltedCerts(o: Oracle, p: Plan, s: Run, authority: Option<Authority>)
    ensures s.halt.Some? ==>
      Steps.CreateServiceCert(o, p, s, authority, p.appCert) == s &&
      Steps.CreateServiceCert(o, p, s, authority, p.keycloakCert) == s
  {
  }
}
