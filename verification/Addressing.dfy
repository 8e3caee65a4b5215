/**
  How addresses agree with certificates (section 4.2.1.6 of RFC 5280): which
  hosts of the URLs that the operator makes for a component are covered by the
  certificate that the component's pod mounts, and when scheme, service port
  and mount agree.
 */
module Addressing {
  import opened Wrappers
  import opened Resources
  import opened HorreumApi
  import opened Plans
  import opened Steps
  import opened Builders
  import opened TrustChain
  import opened Numerals

  /* The service's selector picks the pod. */
  predicate Selects(service: Manifest, pod: Manifest) {
    service.ServiceM? && pod.PodM? &&
    forall k | k in service.selector :: k in pod.labels && pod.labels[k] == service.selector[k]
  }

  /* The secret that a pod mounts as its certificate into its main container. */
  function MountedCert(spec: PodSpec): Option<string> {
    if |spec.containers| == 1 && MountsCerts(spec.containers[0].mounts) then SecretVolume(spec.volumes, "certs")
    else None
  }

  predicate MountsCerts(mounts: seq<Mount>) {
    exists i | 0 <= i < |mounts| :: mounts[i].volume == "certs"
  }

  function SecretVolume(volumes: seq<Volume>, name: string): Option<string> {
    if volumes == [] then None
    else if volumes[0].name == name && volumes[0].source.SecretSource? then Some(volumes[0].source.secret)
    else SecretVolume(volumes[1..], name)
  }

  lemma SecretVolumeLast(volumes: seq<Volume>, name: string, last: Volume)
    requires forall i | 0 <= i < |volumes| :: volumes[i].name != name
    ensures SecretVolume(volumes + [last], name) ==
      if last.name == name && last.source.SecretSource? then Some(last.source.secret) else None
  {
    if volumes == [] {
      assert [] + [last] == [last];
    } else {
      assert (volumes + [last])[1..] == volumes[1..] + [last];
      SecretVolumeLast(volumes[1..], name, last);
    }
  }

  lemma NoSecretVolume(volumes: seq<Volume>, name: string)
    requires forall i | 0 <= i < |volumes| :: volumes[i].name != name
    ensures SecretVolume(volumes, name) == None
  {
  }

  predicate StartsWith(url: string, prefix: string) {
    prefix <= url
  }

  /* The port of a component's service is that of TLS. */
  predicate TlsPort(service: Manifest) {
    service.ServiceM? && |service.ports| == 1 && service.ports[0].port == 443 && service.ports[0].target == 8443
  }

  lemma AppMountedCert(cr: Horreum, u: string, v: string)
    ensures MountedCert(AppPodSpec(cr, u, v)) ==
      if ServesTls(cr.spec.route.kind) then Some(AppCertSecret(cr)) else None
  {
    hide AppEnv, AppInitEnv, AppImage, SecretVolume, AppCertSecret;
    var base := [Volume("imports", EmptyDir), Volume("service-ca", ConfigMapSource(SERVICE_CA))];
    if ServesTls(cr.spec.route.kind) {
      var last := Volume("certs", SecretSource(AppCertSecret(cr)));
      SecretVolumeLast(base, "certs", last);
      assert AppVolumes(cr) == base + [last];
      assert AppMounts(cr)[1].volume == "certs";
    } else {
      NoSecretVolume(base, "certs");
      assert AppVolumes(cr) == base;
    }
  }

  lemma KeycloakMountedCert(cr: Horreum, host: string)
    ensures MountedCert(KeycloakPodSpec(cr, host)) == Some(KeycloakCertSecret(cr))
  {
    hide KeycloakEnv, WithDefault, KeycloakCertSecret;
    var spec := KeycloakPodSpec(cr, host);
    assert spec.containers[0].mounts[0].volume == "certs";
  }

  /* The route types the repository documents. */
  predicate KnownType(kind: string) {
    kind == "http" || kind == "edge" || kind == "passthrough" || kind == "reencrypt" || kind == ""
  }

  /** Scheme, service port and certificate mount of the application agree if
      and only if its route type is a known one: for any other type the code
      takes TLS for granted but mounts no certificate. */
  lemma AppAgreesIff(env: Env, cr: Horreum, u: string, v: string)
    ensures var tls := StartsWith(AppInternalUrl(cr), "https://");
      && tls == TlsPort(AppService(cr, env.routes)) == StartsWith(InnerProtocol(cr.spec.route), "https://")
      && (tls == MountedCert(AppPodSpec(cr, u, v)).Some? <==> KnownType(cr.spec.route.kind))
  {
    hide AppPodSpec, MountedCert, Labels, AppCertSecret;
    AppMountedCert(cr, u, v);
    var scheme := InnerProtocol(cr.spec.route);
    assert scheme == "http://" || scheme == "https://";
    assert AppInternalUrl(cr)[4] == scheme[4];
    if PlainInside(cr.spec.route) {
      assert !StartsWith(AppInternalUrl(cr), "https://") by { assert "https://"[4] == 's'; }
    }
  }

  /** A node port URL is always https; the pod behind it serves TLS on the
      service's port if and only if its route type is one that mounts a
      certificate, which http, edge and unknown types are not. */
  lemma NodePortServesIff(env: Env, cr: Horreum, u: string, v: string, port: nat)
    ensures StartsWith(NodeUrl(cr.spec.nodeHost, port), "https://")
    ensures TlsPort(AppService(cr, env.routes)) && MountedCert(AppPodSpec(cr, u, v)).Some? <==>
      cr.spec.route.kind in {"passthrough", "reencrypt", ""}
    ensures TlsPort(KeycloakService(cr, env.routes))
  {
    hide Decimal, Labels, AppPodSpec, MountedCert, AppCertSecret;
    AppMountedCert(cr, u, v);
  }

  /** Services select the pods of their own component, and of no other. */
  lemma ServicesSelect(env: Env, cr: Horreum, u: string, v: string)
    ensures Selects(AppService(cr, env.routes), AppPod(cr, u, v))
    ensures Selects(PostgresService(cr), PostgresPod(cr, env.redHat))
    ensures KeycloakPod(env, cr, u).Some? ==>
      && Selects(KeycloakService(cr, env.routes), KeycloakPod(env, cr, u).value)
      && !Selects(AppService(cr, env.routes), KeycloakPod(env, cr, u).value)
    ensures !Selects(AppService(cr, env.routes), PostgresPod(cr, env.redHat))
    ensures !Selects(KeycloakService(cr, env.routes), AppPod(cr, u, v))
    ensures !Selects(KeycloakService(cr, env.routes), PostgresPod(cr, env.redHat))
    ensures !Selects(PostgresService(cr), AppPod(cr, u, v))
  {
    hide AppPodSpec, KeycloakPodSpec, PostgresPodSpec, ServiceType, ServicePort;
    assert "app" != "keycloak" && "app" != "db" && "keycloak" != "db";
    var app, keycloak, db := Labels(cr, "app"), Labels(cr, "keycloak"), Labels(cr, "db");
    assert app["service"] == "app" && keycloak["service"] == "keycloak" && db["service"] == "db";
  }

  /* The names a certificate is made for: four internal ones and the node host. */
  function InternalNames(service: string, ns: string): set<string> {
    {service + "." + ns + ".svc", service + "." + ns + ".svc.cluster.local",
     "*." + service + "." + ns + ".svc", "*." + service + "." + ns + ".svc.cluster.local"}
  }

  // How a client looks for the host of a URL in a certificate

  /* A number from 0 to 255 without leading zeros. */
  predicate IsOctet(s: string) {
    && 1 <= |s| <= 3 && (forall i | 0 <= i < |s| :: IsDigit(s[i]))
    && (|s| > 1 ==> s[0] != '0')
    && (|s| == 3 ==> s[0] < '2' || (s[0] == '2' && (s[1] < '5' || (s[1] == '5' && s[2] <= '5'))))
  }

  ghost predicate IsIPv4(host: string) {
    exists a: string, b: string, c: string, d: string ::
      IsOctet(a) && IsOctet(b) && IsOctet(c) && IsOctet(d) && host == a + "." + b + "." + c + "." + d
  }

  predicate IsIPv6(host: string) {
    ':' in host && forall i | 0 <= i < |host| :: host[i] in "0123456789abcdefABCDEF:.[]"
  }

  /* What can only be an IP address; none of these strings is a name in DNS. */
  ghost predicate IsIpLiteral(host: string) {
    IsIPv4(host) || IsIPv6(host)
  }

  predicate Wildcard(name: string, host: string) {
    |name| > 2 && name[..2] == "*." &&
    exists i | 0 < i < |host| :: host[i..] == name[1..] && '.' !in host[..i]
  }

  predicate NameFits(name: string, host: string) {
    name == host || Wildcard(name, host)
  }

  /* A dNSName speaks of host names only, an iPAddress of addresses only. */
  ghost predicate Covers(name: GeneralName, host: string) {
    match name
    case DnsName(n) => !IsIpLiteral(host) && NameFits(n, host)
    case IpAddress(a) => IsIpLiteral(host) && a == host
  }

  ghost predicate Covered(names: seq<GeneralName>, host: string) {
    exists i | 0 <= i < |names| :: Covers(names[i], host)
  }

  /* A client that asked for this host accepts the certificate as the host's. */
  ghost predicate Certifies(obj: Obj, host: string) {
    ServedCert(obj).Some? && Covered(ServedCert(obj).value.sans, host)
  }

  /* The names of a certificate: four internal ones and the node host of the day. */
  function AllNames(service: string, ns: string, made: string): set<string> {
    InternalNames(service, ns) + if made != "" then {made} else {}
  }

  lemma SansAreNames(service: string, ns: string, made: string)
    ensures forall n: string :: n in ServiceSans(service, ns, made) <==> n in AllNames(service, ns, made)
  {
    var base := ServiceSans(service, ns, "");
    assert forall n: string :: n in base <==> n in InternalNames(service, ns);
    assert made != "" ==> ServiceSans(service, ns, made) == base + [made];
  }

  /** A service certificate covers exactly the hosts that are not addresses and
      fit an internal name or the node host at the time it was made: a node host
      that is edited later is not covered, as certificates are never made again,
      and an address never is, as the code lists it as a DNS name. */
  lemma CoveredIff(service: string, ns: string, made: string, host: string)
    ensures Covered(DnsNames(ServiceSans(service, ns, made)), host) <==>
      !IsIpLiteral(host) && exists n | n in AllNames(service, ns, made) :: NameFits(n, host)
  {
    hide ServiceSans, AllNames, NameFits, IsIpLiteral;
    SansAreNames(service, ns, made);
    var sans := ServiceSans(service, ns, made);
    var names := DnsNames(sans);
    if !IsIpLiteral(host) && exists n | n in AllNames(service, ns, made) :: NameFits(n, host) {
      var n :| n in AllNames(service, ns, made) && NameFits(n, host);
      var i :| 0 <= i < |sans| && sans[i] == n;
      assert Covers(names[i], host);
    }
    if Covered(names, host) {
      var i :| 0 <= i < |names| && Covers(names[i], host);
      assert sans[i] in sans;
    }
  }

  lemma Certified(obj: Obj, ca: Authority, task: CertTask, ns: string, made: string, host: string)
    requires IsServiceCert(obj, ca, task, ns, {made}) && host in AllNames(task.service, ns, made)
    ensures Certifies(obj, host) <==> !IsIpLiteral(host)
  {
    hide ServiceSans, IsIpLiteral, AllNames;
    CoveredIff(task.service, ns, made, host);
    assert NameFits(host, host);
  }

  /* The name of a service inside the cluster ends with a letter that no address has. */
  lemma InternalHostIsAName(cr: Horreum, suffix: string)
    ensures !IsIpLiteral(InternalHost(cr, suffix))
  {
    var host := InternalHost(cr, suffix);
    assert host[|host| - 2] == 'v';
    forall a: string, b: string, c: string, d: string | IsOctet(d) ensures host != a + "." + b + "." + c + "." + d {
      var ip := a + "." + b + "." + c + "." + d;
      assert ip[|ip| - 1] == d[|d| - 1];
      assert host[|host| - 1] == 'c';
    }
  }

  lemma LoopbackIsAnAddress()
    ensures IsIpLiteral("127.0.0.1")
  {
    assert IsOctet("127") && IsOctet("0") && IsOctet("1");
    assert "127.0.0.1" == "127" + "." + "0" + "." + "0" + "." + "1";
  }

  /* Without routes, with managed components whose route types serve TLS with the
     operator's certificates, and a node host that has not changed since these
     were made. */
  ghost predicate SelfServed(env: Env, cr: Horreum, h: map<Key, Obj>) {
    && !env.routes && Trusted(ChainFor(cr.ns, cr.name), {cr.spec.nodeHost}, h)
    && (cr.spec.route.kind == "reencrypt" || cr.spec.route.kind == "")
    && (cr.spec.keycloak.route.kind == "reencrypt" || cr.spec.keycloak.route.kind == "")
    && cr.spec.keycloak.external == ExternalSpec("", "")
    && ChainFor(cr.ns, cr.name).app.key in h && ChainFor(cr.ns, cr.name).keycloak.key in h
  }

  /* The secrets that the pods mount as their certificates. */
  lemma MountedSecrets(env: Env, cr: Horreum, h: map<Key, Obj>, keycloakUrl: string, url: string)
    requires SelfServed(env, cr, h) && env.parseHost(keycloakUrl).Some?
    ensures var app, keycloak := AppPod(cr, keycloakUrl, url), KeycloakPod(env, cr, keycloakUrl).value;
      && Selects(AppService(cr, env.routes), app) && Selects(KeycloakService(cr, env.routes), keycloak)
      && MountedCert(app.spec) == Some(ChainFor(cr.ns, cr.name).app.key.name)
      && MountedCert(keycloak.spec) == Some(ChainFor(cr.ns, cr.name).keycloak.key.name)
  {
    hide AppPodSpec, KeycloakPodSpec, MountedCert, ServiceType, ServicePort, Selects, Labels, Trusted;
    ServicesSelect(env, cr, keycloakUrl, url);
    AppMountedCert(cr, keycloakUrl, url);
    KeycloakMountedCert(cr, env.parseHost(keycloakUrl).value);
  }

  /** Internal URLs: the host of each component's internal URL is covered by the
      certificate that the pod behind it mounts. */
  lemma InternalUrlsAreCertified(env: Env, cr: Horreum, h: map<Key, Obj>)
    requires SelfServed(env, cr, h)
    ensures var c := ChainFor(cr.ns, cr.name);
      && AppInternalUrl(cr) == "https://" + InternalHost(cr, "")
      && Certifies(h[c.app.key], InternalHost(cr, ""))
      && KeycloakInternalUrl(cr) == "https://" + InternalHost(cr, "-keycloak")
      && Certifies(h[c.keycloak.key], InternalHost(cr, "-keycloak"))
  {
    hide IsServiceCert, IsBundle, ReadAuthority, Certifies, IsIpLiteral;
    var c := ChainFor(cr.ns, cr.name);
    var ca := ReadAuthority(h[c.ca]).value;
    assert cr.name + "" == cr.name;
    InternalHostIsAName(cr, "");
    InternalHostIsAName(cr, "-keycloak");
    Certified(h[c.app.key], ca, c.app, cr.ns, cr.spec.nodeHost, InternalHost(cr, ""));
    Certified(h[c.keycloak.key], ca, c.keycloak, cr.ns, cr.spec.nodeHost, InternalHost(cr, "-keycloak"));
  }

  /** Node port URLs: their host is covered by the certificates of the pods
      behind them if and only if the node host is not an address. */
  lemma NodePortUrlsAreCertifiedIff(env: Env, cr: Horreum, h: map<Key, Obj>)
    requires SelfServed(env, cr, h) && cr.spec.nodeHost != ""
    ensures var c := ChainFor(cr.ns, cr.name);
      && (Certifies(h[c.app.key], cr.spec.nodeHost) <==> !IsIpLiteral(cr.spec.nodeHost))
      && (Certifies(h[c.keycloak.key], cr.spec.nodeHost) <==> !IsIpLiteral(cr.spec.nodeHost))
  {
    hide IsServiceCert, IsBundle, ReadAuthority, Certifies, IsIpLiteral;
    var c := ChainFor(cr.ns, cr.name);
    var ca := ReadAuthority(h[c.ca]).value;
    Certified(h[c.app.key], ca, c.app, cr.ns, cr.spec.nodeHost, cr.spec.nodeHost);
    Certified(h[c.keycloak.key], ca, c.keycloak, cr.ns, cr.spec.nodeHost, cr.spec.nodeHost);
  }

  /** The address of the sample resource is not covered, so a client that follows
      the node port URL does not accept the certificate it gets. */
  lemma LoopbackIsNotCertified(env: Env, cr: Horreum, h: map<Key, Obj>)
    requires SelfServed(env, cr, h) && cr.spec.nodeHost == "127.0.0.1"
    ensures !Certifies(h[ChainFor(cr.ns, cr.name).app.key], cr.spec.nodeHost)
    ensures !Certifies(h[ChainFor(cr.ns, cr.name).keycloak.key], cr.spec.nodeHost)
  {
    hide IsIpLiteral, Certifies, Trusted;
    LoopbackIsAnAddress();
    NodePortUrlsAreCertifiedIff(env, cr, h);
  }
}
