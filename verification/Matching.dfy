/**
  What the compare* and check* functions of controllers/horreum_controller.go
  decide, stated over whole objects without loops.
 */
module Matching {
  import opened Wrappers
  import opened Trees
  import opened Resources
  import opened HorreumApi

  /* The compare and check functions a call of ensureSame is given. */
  datatype Mode =
    | Exists                          // nocompare, nocheck
    | HasKeys(keys: seq<string>)      // nocompare, checkSecret(keys...)
    | SameData                        // compareConfigMap, nocheck
    | SamePod                         // comparePods, checkPod
    | SameService                     // compareService, nocheck
    | SameRoute                       // compareRoute, checkRoute

  datatype Problem = Problem(phase: Phase, reason: Reason)

  predicate SamePorts(ws: seq<Port>, hs: seq<LivePort>) {
    |ws| == |hs| && forall i | 0 <= i < |ws| :: ws[i].port == hs[i].port
  }

  predicate Matches(mode: Mode, want: Manifest, have: Obj) {
    match mode
    case Exists => true
    case HasKeys(_) => true
    case SameData => want.ConfigMapM? && have.ConfigMap? && want.texts == have.texts
    case SamePod => want.PodM? && have.Pod? && Derives(Encode(want.spec), have.spec)
    case SameService =>
      want.ServiceM? && have.Service? &&
      want.serviceType == have.serviceType && SamePorts(want.ports, have.ports)
    case SameRoute =>
      want.RouteM? && have.Route? &&
      if want.host == "" then want.subdomain == have.subdomain
      else want.host == have.host && want.tls == have.tls
  }

  predicate PullFails(c: ContainerState) {
    c.waiting == Some("ImagePullBackOff") || c.waiting == Some("ErrImagePull")
  }

  predicate HasDied(c: ContainerState) {
    c.waiting == None && c.terminated
  }

  /* The position of the first container that is in trouble, or the length. */
  function FirstBad(cs: seq<ContainerState>): (i: nat)
    ensures i <= |cs|
    ensures forall j | 0 <= j < i :: !PullFails(cs[j]) && !HasDied(cs[j])
    ensures i < |cs| ==> PullFails(cs[i]) || HasDied(cs[i])
  {
    if cs == [] then 0
    else if PullFails(cs[0]) || HasDied(cs[0]) then 0
    else 1 + FirstBad(cs[1..])
  }

  predicate IsReady(conditions: seq<Condition>) {
    exists i | 0 <= i < |conditions| :: conditions[i] == Condition("Ready", "True")
  }

  function PodProblem(key: Key, have: Obj): Option<Problem> {
    if !have.Pod? then Some(Problem(Error, WrongKind(key)))
    else
      var cs := have.podStatus.containers;
      var bad := FirstBad(cs);
      if bad < |cs| then
        if PullFails(cs[bad]) then Some(Problem(Error, CannotPullImage(key)))
        else Some(Problem(Pending, TerminatedContainer(key)))
      else if IsReady(have.podStatus.conditions) then None
      else Some(Problem(Pending, PodNotReady(key)))
  }

  /* All conditions of all ingresses, in the order in which they are visited. */
  function Conditions(ingress: seq<Ingress>): seq<Condition> {
    if ingress == [] then [] else ingress[0].conditions + Conditions(ingress[1..])
  }

  function FirstAdmitted(cs: seq<Condition>): (i: nat)
    ensures i <= |cs|
    ensures forall j | 0 <= j < i :: cs[j].name != "Admitted"
    ensures i < |cs| ==> cs[i].name == "Admitted"
  {
    if cs == [] then 0 else if cs[0].name == "Admitted" then 0 else 1 + FirstAdmitted(cs[1..])
  }

  function RouteProblem(key: Key, have: Obj): Option<Problem> {
    if !have.Route? then Some(Problem(Error, WrongKind(key)))
    else
      var cs := Conditions(have.ingress);
      var first := FirstAdmitted(cs);
      if first == |cs| then Some(Problem(Pending, RouteUnknown(key)))
      else if cs[first].status == "True" then None
      else Some(Problem(Error, RouteNotAdmitted(key)))
  }

  function SecretProblem(key: Key, keys: seq<string>, have: Obj): Option<Problem> {
    if !have.Secret? then Some(Problem(Error, WrongKind(key)))
    else if keys == [] then None
    else if keys[0] !in have.data then Some(Problem(Error, MissingData(key, keys[0])))
    else SecretProblem(key, keys[1..], have)
  }

  function CheckProblem(mode: Mode, key: Key, have: Obj): Option<Problem> {
    match mode
    case HasKeys(keys) => SecretProblem(key, keys, have)
    case SamePod => PodProblem(key, have)
    case SameRoute => RouteProblem(key, have)
    case _ => None
  }

  /* The first of the keys that the secret does not hold. */
  predicate FirstMissing(keys: seq<string>, have: Obj, i: nat) {
    have.Secret? && i < |keys| && keys[i] !in have.data && forall j | 0 <= j < i :: keys[j] in have.data
  }

  /** A secret passes exactly when it holds every key asked for; otherwise the first
      missing one is reported, as an error. */
  lemma {:induction false} SecretProblemMeaning(key: Key, keys: seq<string>, have: Obj)
    ensures SecretProblem(key, keys, have) == None
       <==> have.Secret? && forall i | 0 <= i < |keys| :: keys[i] in have.data
    ensures forall i: nat | FirstMissing(keys, have, i) ::
      SecretProblem(key, keys, have) == Some(Problem(Error, MissingData(key, keys[i])))
    ensures forall p: Problem | SecretProblem(key, keys, have) == Some(p) :: p.phase == Error
  {
    if have.Secret? && keys != [] && keys[0] in have.data {
      SecretProblemMeaning(key, keys[1..], have);
      assert keys == [keys[0]] + keys[1..];
      forall i: nat | FirstMissing(keys, have, i)
        ensures SecretProblem(key, keys, have) == Some(Problem(Error, MissingData(key, keys[i])))
      {
        assert FirstMissing(keys[1..], have, i - 1);
      }
    }
  }

  /** Whatever a check complains about, it complains as Pending or as Error. */
  lemma CheckSeverity(mode: Mode, key: Key, have: Obj)
    ensures forall p: Problem | CheckProblem(mode, key, have) == Some(p) :: p.phase == Pending || p.phase == Error
  {
    if mode.HasKeys? {
      SecretProblemMeaning(key, mode.keys, have);
    }
  }

  function RouteUrl(route: Obj): string {
    if !route.Route? || route.ingress == [] || route.ingress[0].host == "" then ""
    else (if route.tls.Some? then "https" else "http") + "://" + route.ingress[0].host
  }
}
