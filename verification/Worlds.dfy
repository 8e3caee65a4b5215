/**
  The API server as the reconciler of one Horreum resource sees it.

  Assumptions about the server: reads are current; a create or delete is atomic;
  admission may extend a pod spec but not change what it sets; a service or
  route is created without a URL except for the node port that may be allocated
  with it; a route gets no ingress before its creation is over.  Everything else
  is up to the oracle: which calls fail, whether a failed call took effect, where
  the operator crashes, and what happens in other namespaces meanwhile.
 */
module Worlds {
  import opened Wrappers
  import opened Trees
  import opened Resources
  import opened HorreumApi

  datatype Reply =
    | Ok       // the call took effect and its success was reported
    | Refused  // the call had no effect and an error was reported
    | Lost     // the call took effect but an error was reported
    | Crash    // the operator stopped before the call

  /* Everything the operator cannot foresee, by the number of the API call. */
  datatype Oracle = Oracle(
    reply: nat -> Reply,
    foreign: nat -> map<Key, Obj>,        // objects of other namespaces at that call
    admission: nat -> Tree,               // pod spec proposed by admission
    nodePort: nat -> nat,                 // 0 when not allocated at once
    routeHost: nat -> string,             // host given to a route that asks for none
    password: nat -> string,
    dbSecret: nat -> string,
    rsa: nat -> Option<PrivateKey>,       // None when key generation fails
    signs: nat -> bool,                   // whether x509.CreateCertificate succeeds
    now: nat -> int)

  /* A change made by the operator, with the objects of its namespace just before. */
  datatype Event =
    | Made(what: Manifest, result: Obj, before: map<Key, Obj>)
    | Dropped(key: Key, before: map<Key, Obj>)

  function EventKey(e: Event): Key {
    if e.Made? then e.what.key else e.key
  }

  datatype World = World(
    ns: string,                // the namespace of the Horreum resource
    home: map<Key, Obj>,       // objects of that namespace
    away: map<Key, Obj>,       // objects of all other namespaces
    cr: Option<Horreum>,       // the stored Horreum resource
    clock: nat,                // number of API calls so far
    log: seq<Event>)           // changes made by the operator so far

  datatype Fetch = Found(obj: Obj) | NotFound | Unavailable | Died
  datatype Ack = Done | Denied | Gone

  function Tick(o: Oracle, w: World): World {
    w.(away := o.foreign(w.clock), clock := w.clock + 1)
  }

  function Objects(w: World, k: Key): map<Key, Obj> {
    if k.ns == w.ns then w.home else w.away
  }

  function Get(o: Oracle, w: World, k: Key): (World, Fetch) {
    var w' := Tick(o, w);
    (w', match o.reply(w.clock)
         case Crash => Died
         case Refused => Unavailable
         case Lost => Unavailable
         case Ok => if k in Objects(w', k) then Found(Objects(w', k)[k]) else NotFound)
  }

  function Allocate(serviceType: string, port: nat): nat {
    if serviceType == "NodePort" || serviceType == "LoadBalancer" then port else 0
  }

  /* What the server stores for a manifest: admission and allocation applied,
     StringData turned into Data, no status yet. */
  function Live(o: Oracle, n: nat, owner: Owner, m: Manifest): Obj {
    match m
    case PodM(_, labels, spec) =>
      var wanted := Encode(spec);
      Pod(owner, labels, if Derives(wanted, o.admission(n)) then o.admission(n) else wanted, PodStatus([], []))
    case ServiceM(_, serviceType, ports, selector) =>
      Service(owner, serviceType,
              seq(|ports|, i requires 0 <= i < |ports| =>
                LivePort(ports[i].name, ports[i].port, ports[i].target, Allocate(serviceType, o.nodePort(n)))),
              selector)
    case RouteM(_, host, subdomain, target, tls) =>
      Route(owner, if host == "" then o.routeHost(n) else host, subdomain, target, tls, [])
    case SecretM(_, data) => Secret(owner, data)
    case ConfigMapM(_, texts, binary) => ConfigMap(owner, texts, binary)
  }

  function Put(w: World, k: Key, obj: Obj): World {
    if k.ns == w.ns then w.(home := w.home[k := obj]) else w.(away := w.away[k := obj])
  }

  function Remove(w: World, k: Key): World {
    if k.ns == w.ns then w.(home := w.home - {k}) else w.(away := w.away - {k})
  }

  function Create(o: Oracle, w: World, owner: Owner, m: Manifest): (World, Ack) {
    var w' := Tick(o, w);
    var reply := o.reply(w.clock);
    if reply == Crash then (w', Gone)
    else if reply == Refused || m.key in Objects(w', m.key) then (w', Denied)
    else
      var obj := Live(o, w.clock, owner, m);
      (Put(w', m.key, obj).(log := w.log + [Made(m, obj, w.home)]), if reply == Ok then Done else Denied)
  }

  function Delete(o: Oracle, w: World, k: Key): (World, Ack) {
    var w' := Tick(o, w);
    var reply := o.reply(w.clock);
    if reply == Crash then (w', Gone)
    else if reply == Refused || k !in Objects(w', k) then (w', Denied)
    else
      (Remove(w', k).(log := w.log + [Dropped(k, w.home)]), if reply == Ok then Done else Denied)
  }

  /* The status subresource: nothing but the status of the stored resource changes. */
  function StoreStatus(o: Oracle, w: World, st: Status): (World, Ack) {
    var w' := Tick(o, w);
    var reply := o.reply(w.clock);
    if reply == Crash then (w', Gone)
    else if reply == Refused || w.cr == None then (w', Denied)
    else (w'.(cr := Some(w.cr.value.(status := st))), if reply == Ok then Done else Denied)
  }
}
