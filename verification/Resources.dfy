/**
  The Kubernetes objects the operator deals with, in two forms: a Manifest is
  what the operator asks the API server to create, an Obj is what is live.
  Only what the reconciler reads, writes or refers to is kept.
 */
module Resources {
  import opened Wrappers
  import opened Trees

  datatype Kind = PodKind | ServiceKind | RouteKind | SecretKind | ConfigMapKind

  datatype Key = Key(kind: Kind, ns: string, name: string)

  /* Keys of RSA pairs are abstract; signing and encoding are symbolic. */
  datatype PublicKey = PublicKey(id: nat)
  datatype PrivateKey = PrivateKey(public: PublicKey)
  /* The subject alternative names of a certificate are typed (section 4.2.1.6 of RFC 5280). */
  datatype GeneralName = DnsName(name: string) | IpAddress(address: string)
  datatype Certificate = Certificate(
    serial: int, commonName: string, sans: seq<GeneralName>, isCA: bool,
    publicKey: PublicKey, signer: PublicKey)

  /* The DNSNames field of x509.Certificate. */
  function DnsNames(names: seq<string>): seq<GeneralName> {
    seq(|names|, i requires 0 <= i < |names| => DnsName(names[i]))
  }

  /* A byte string: plain text, or the PEM form of a certificate or of a private key. */
  datatype Blob = Plain(text: string) | CertPem(cert: Certificate) | KeyPem(key: PrivateKey)

  const USERNAME := "username"
  const PASSWORD := "password"
  const DBSECRET := "dbsecret"
  const TLSCERT := "tls.crt"
  const TLSKEY := "tls.key"
  const CACERT := "ca.crt"

  // Pod specs as the builders write them

  datatype EnvVar = Value(name: string, value: string) | FromSecret(name: string, secret: string, key: string)
  datatype Mount = Mount(volume: string, path: string, subPath: string)
  datatype Container = Container(
    name: string, image: string, env: seq<EnvVar>, ports: seq<int>, runAsUser: Option<int>, mounts: seq<Mount>)
  datatype Source = EmptyDir | ConfigMapSource(config: string) | SecretSource(secret: string) | Claim(claim: string)
  datatype Volume = Volume(name: string, source: Source)
  datatype PodSpec = PodSpec(
    grace: Option<int>, fsGroup: Option<int>,
    initContainers: seq<Container>, containers: seq<Container>, volumes: seq<Volume>)

  function EncodeOption(v: Option<int>): Tree {
    match v case None => Unset case Some(n) => Number(n)
  }

  function EncodeEnv(e: EnvVar): Tree {
    match e
    case Value(name, value) => Struct([Text(name), Text(value), Unset])
    case FromSecret(name, secret, key) =>
      Struct([Text(name), Text(""), Struct([Text(secret), Text(key), Flag(false)])])
  }

  function EncodeMount(m: Mount): Tree {
    Struct([Text(m.volume), Text(m.path), Text(m.subPath)])
  }

  function EncodeContainer(c: Container): Tree {
    Struct([
      Text(c.name), Text(c.image),
      Slice(seq(|c.env|, i requires 0 <= i < |c.env| => EncodeEnv(c.env[i]))),
      Slice(seq(|c.ports|, i requires 0 <= i < |c.ports| => Number(c.ports[i]))),
      EncodeOption(c.runAsUser),
      Slice(seq(|c.mounts|, i requires 0 <= i < |c.mounts| => EncodeMount(c.mounts[i])))
    ])
  }

  function EncodeSource(s: Source): Tree {
    match s
    case EmptyDir => Struct([Struct([]), Unset, Unset, Unset])
    case ConfigMapSource(name) => Struct([Unset, Struct([Text(name)]), Unset, Unset])
    case SecretSource(name) => Struct([Unset, Unset, Struct([Text(name)]), Unset])
    case Claim(name) => Struct([Unset, Unset, Unset, Struct([Text(name)])])
  }

  function EncodeVolume(v: Volume): Tree {
    Struct([Text(v.name), EncodeSource(v.source)])
  }

  function Encode(p: PodSpec): Tree {
    Struct([
      EncodeOption(p.grace), EncodeOption(p.fsGroup),
      Slice(seq(|p.initContainers|, i requires 0 <= i < |p.initContainers| => EncodeContainer(p.initContainers[i]))),
      Slice(seq(|p.containers|, i requires 0 <= i < |p.containers| => EncodeContainer(p.containers[i]))),
      Slice(seq(|p.volumes|, i requires 0 <= i < |p.volumes| => EncodeVolume(p.volumes[i])))
    ])
  }

  /* What a pod needs in its namespace before the kubelet can start it. */
  function EnvRefs(ns: string, env: seq<EnvVar>): set<Key> {
    set e | e in env && e.FromSecret? :: Key(SecretKind, ns, e.secret)
  }

  function VolumeRefs(ns: string, volumes: seq<Volume>): set<Key> {
    (set v | v in volumes && v.source.SecretSource? :: Key(SecretKind, ns, v.source.secret)) +
    (set v | v in volumes && v.source.ConfigMapSource? :: Key(ConfigMapKind, ns, v.source.config))
  }

  function PodRefs(ns: string, p: PodSpec): set<Key> {
    (set c, k | c in p.initContainers + p.containers && k in EnvRefs(ns, c.env) :: k) + VolumeRefs(ns, p.volumes)
  }

  // Manifests

  datatype Port = Port(name: string, port: int, target: int)
  datatype Termination = EdgeTermination | ReencryptTermination | PassthroughTermination
  datatype TlsConfig = TlsConfig(termination: Termination, certificate: Blob, privateKey: Blob, caCertificate: Blob)

  datatype Manifest =
    | PodM(key: Key, labels: map<string, string>, spec: PodSpec)
    | ServiceM(key: Key, serviceType: string, ports: seq<Port>, selector: map<string, string>)
    | RouteM(key: Key, host: string, subdomain: string, target: string, tls: Option<TlsConfig>)
    | SecretM(key: Key, data: map<string, Blob>)
    | ConfigMapM(key: Key, texts: map<string, string>, binary: map<string, Blob>)

  function KindOf(m: Manifest): Kind {
    match m
    case PodM(_, _, _) => PodKind
    case ServiceM(_, _, _, _) => ServiceKind
    case RouteM(_, _, _, _, _) => RouteKind
    case SecretM(_, _) => SecretKind
    case ConfigMapM(_, _, _) => ConfigMapKind
  }

  // Live objects

  datatype ContainerState = ContainerState(waiting: Option<string>, terminated: bool)
  datatype Condition = Condition(name: string, status: string)
  datatype PodStatus = PodStatus(containers: seq<ContainerState>, conditions: seq<Condition>)
  datatype LivePort = LivePort(name: string, port: int, target: int, nodePort: nat)
  datatype Ingress = Ingress(host: string, conditions: seq<Condition>)
  datatype Owner = Owner(ns: string, name: string)

  datatype Obj =
    | Pod(owner: Owner, labels: map<string, string>, spec: Tree, podStatus: PodStatus)
    | Service(owner: Owner, serviceType: string, ports: seq<LivePort>, selector: map<string, string>)
    | Route(owner: Owner, host: string, subdomain: string, target: string, tls: Option<TlsConfig>,
            ingress: seq<Ingress>)
    | Secret(owner: Owner, data: map<string, Blob>)
    | ConfigMap(owner: Owner, texts: map<string, string>, binary: map<string, Blob>)
}
