/**
  The comparison and check loops of controllers/horreum_controller.go:483-602,
  proved to decide what Matching says without loops.
 */
module Comparing {
  import opened Wrappers
  import opened Trees
  import opened Resources
  import opened HorreumApi
  import opened Matching

  method CompareService(want: Manifest, have: Obj) returns (same: bool)
    ensures same <==>
      && want.ServiceM? && have.Service? && want.serviceType == have.serviceType && |want.ports| == |have.ports|
      && forall i | 0 <= i < |want.ports| :: want.ports[i].port == have.ports[i].port
    ensures same == Matches(SameService, want, have)
  {
    if !want.ServiceM? || !have.Service? { return false; }
    if want.serviceType != have.serviceType { return false; }
    if |want.ports| != |have.ports| { return false; }
    for i := 0 to |want.ports|
      invariant forall j | 0 <= j < i :: want.ports[j].port == have.ports[j].port
    {
      if want.ports[i].port != have.ports[i].port { return false; }
    }
    return true;
  }

  lemma SubsetOfSameSize<T>(a: set<T>, b: set<T>)
    requires a <= b && |a| == |b|
    ensures a == b
  {
    assert b == a + (b - a);
    assert |b - a| == 0;
  }

  /* Equal sizes and equal values at every key of the one map make the maps equal. */
  method CompareTexts(want: map<string, string>, have: map<string, string>) returns (same: bool)
    ensures same <==> want == have
  {
    if |want| != |have| { return false; }
    var rest := want.Keys;
    while rest != {}
      invariant rest <= want.Keys
      invariant forall k | k in want.Keys - rest :: k in have && have[k] == want[k]
      decreases |rest|
    {
      var key :| key in rest;
      if key !in have || have[key] != want[key] { return false; }
      rest := rest - {key};
    }
    SubsetOfSameSize(want.Keys, have.Keys);
    return true;
  }

  method CompareConfigMap(want: Manifest, have: Obj) returns (same: bool)
    ensures same <==> want.ConfigMapM? && have.ConfigMap? && want.texts == have.texts
    ensures same == Matches(SameData, want, have)
  {
    if !want.ConfigMapM? || !have.ConfigMap? { return false; }
    same := CompareTexts(want.texts, have.texts);
  }

  method CompareRoute(want: Manifest, have: Obj) returns (same: bool)
    ensures same == Matches(SameRoute, want, have)
  {
    if !want.RouteM? || !have.Route? { return false; }
    if want.host == "" { return want.subdomain == have.subdomain; }
    if want.host != have.host { return false; }
    return want.tls == have.tls;
  }

  /** Of two routes that match, a change of the live TLS settings goes unnoticed if
      and only if the wanted host is left to the cluster; a change of the live
      host goes unnoticed in the same case. */
  lemma RouteDriftUnnoticedIff(want: Manifest, have: Obj)
    requires want.RouteM? && have.Route? && Matches(SameRoute, want, have)
    ensures (forall tls: Option<TlsConfig> :: Matches(SameRoute, want, have.(tls := tls))) <==> want.host == ""
    ensures (forall host: string :: Matches(SameRoute, want, have.(host := host))) <==> want.host == ""
  {
    if want.host != "" {
      var other := if want.tls == None then Some(TlsConfig(EdgeTermination, Plain(""), Plain(""), Plain(""))) else None;
      assert !Matches(SameRoute, want, have.(tls := other));
      assert !Matches(SameRoute, want, have.(host := ""));
    }
  }

  method ComparePods(want: Manifest, have: Obj) returns (same: bool)
    ensures same == Matches(SamePod, want, have)
  {
    if !want.PodM? || !have.Pod? { return false; }
    return Derives(Encode(want.spec), have.spec);
  }

  method Compare(mode: Mode, want: Manifest, have: Obj) returns (same: bool)
    ensures same == Matches(mode, want, have)
  {
    match mode
    case Exists => same := true;
    case HasKeys(_) => same := true;
    case SameData => same := CompareConfigMap(want, have);
    case SamePod => same := ComparePods(want, have);
    case SameService => same := CompareService(want, have);
    case SameRoute => same := CompareRoute(want, have);
  }

  lemma FirstBadAt(cs: seq<ContainerState>, i: nat)
    requires i <= |cs| && forall j | 0 <= j < i :: !PullFails(cs[j]) && !HasDied(cs[j])
    requires i == |cs| || PullFails(cs[i]) || HasDied(cs[i])
    ensures FirstBad(cs) == i
  {
  }

  /* The outer branch looks at waiting containers only, as the else-if does. */
  method CheckPod(key: Key, have: Obj) returns (problem: Option<Problem>)
    ensures problem == PodProblem(key, have)
  {
    if !have.Pod? { return Some(Problem(Error, WrongKind(key))); }
    var cs := have.podStatus.containers;
    for i := 0 to |cs|
      invariant forall j | 0 <= j < i :: !PullFails(cs[j]) && !HasDied(cs[j])
    {
      if cs[i].waiting.Some? {
        var reason := cs[i].waiting.value;
        if reason == "ImagePullBackOff" || reason == "ErrImagePull" {
          FirstBadAt(cs, i);
          return Some(Problem(Error, CannotPullImage(key)));
        }
      } else if cs[i].terminated {
        FirstBadAt(cs, i);
        return Some(Problem(Pending, TerminatedContainer(key)));
      }
    }
    FirstBadAt(cs, |cs|);
    var conditions := have.podStatus.conditions;
    for i := 0 to |conditions|
      invariant forall j | 0 <= j < i :: conditions[j] != Condition("Ready", "True")
    {
      if conditions[i].name == "Ready" && conditions[i].status == "True" { return None; }
    }
    return Some(Problem(Pending, PodNotReady(key)));
  }

  lemma FirstAdmittedAt(cs: seq<Condition>, i: nat)
    requires i <= |cs| && forall j | 0 <= j < i :: cs[j].name != "Admitted"
    requires i == |cs| || cs[i].name == "Admitted"
    ensures FirstAdmitted(cs) == i
  {
  }

  lemma {:induction false} ConditionsAppend(a: seq<Ingress>, b: seq<Ingress>)
    ensures Conditions(a + b) == Conditions(a) + Conditions(b)
  {
    if a == [] {
      assert a + b == b;
    } else {
      assert (a + b)[1..] == a[1..] + b;
      ConditionsAppend(a[1..], b);
    }
  }

  lemma NoConditions(none: seq<Ingress>)
    requires none == []
    ensures Conditions(none) == []
  {
  }

  lemma ConditionsOfOne(one: Ingress)
    ensures Conditions([one]) == one.conditions
  {
    assert [one][1..] == [];
  }

  lemma ConditionsNext(ingress: seq<Ingress>, i: nat)
    requires i < |ingress|
    ensures Conditions(ingress[..i + 1]) == Conditions(ingress[..i]) + ingress[i].conditions
  {
    hide Conditions;
    ConditionsOfOne(ingress[i]);
    assert ingress[..i + 1] == ingress[..i] + [ingress[i]];
    ConditionsAppend(ingress[..i], [ingress[i]]);
  }

  lemma ConditionsSplit(ingress: seq<Ingress>, i: nat)
    requires i < |ingress|
    ensures Conditions(ingress) == Conditions(ingress[..i]) + ingress[i].conditions + Conditions(ingress[i + 1..])
    ensures Conditions(ingress[..i + 1]) == Conditions(ingress[..i]) + ingress[i].conditions
  {
    hide Conditions;
    ConditionsNext(ingress, i);
    assert ingress == ingress[..i + 1] + ingress[i + 1..];
    ConditionsAppend(ingress[..i + 1], ingress[i + 1..]);
  }

  /* The first Admitted condition of any ingress decides. */
  method CheckRoute(key: Key, have: Obj) returns (problem: Option<Problem>)
    ensures problem == RouteProblem(key, have)
  {
    hide Conditions, FirstAdmitted;
    if !have.Route? { return Some(Problem(Error, WrongKind(key))); }
    ghost var all := Conditions(have.ingress);
    assert Conditions(have.ingress[..0]) == [] by { NoConditions(have.ingress[..0]); }
    for i := 0 to |have.ingress|
      invariant forall c | c in Conditions(have.ingress[..i]) :: c.name != "Admitted"
    {
      var cs := have.ingress[i].conditions;
      ghost var before := Conditions(have.ingress[..i]);
      ConditionsSplit(have.ingress, i);
      for j := 0 to |cs|
        invariant forall k | 0 <= k < j :: cs[k].name != "Admitted"
      {
        if cs[j].name == "Admitted" {
          assert all[|before| + j] == cs[j];
          FirstAdmittedAt(all, |before| + j);
          return if cs[j].status == "True" then None else Some(Problem(Error, RouteNotAdmitted(key)));
        }
      }
    }
    assert have.ingress[..|have.ingress|] == have.ingress;
    FirstAdmittedAt(all, |all|);
    return Some(Problem(Pending, RouteUnknown(key)));
  }

  method CheckSecret(key: Key, keys: seq<string>, have: Obj) returns (problem: Option<Problem>)
    ensures problem == SecretProblem(key, keys, have)
  {
    if !have.Secret? { return Some(Problem(Error, WrongKind(key))); }
    for i := 0 to |keys|
      invariant SecretProblem(key, keys, have) == SecretProblem(key, keys[i..], have)
    {
      if keys[i] !in have.data { return Some(Problem(Error, MissingData(key, keys[i]))); }
    }
    return None;
  }

  method Check(mode: Mode, key: Key, have: Obj) returns (problem: Option<Problem>)
    ensures problem == CheckProblem(mode, key, have)
  {
    match mode
    case HasKeys(keys) => problem := CheckSecret(key, keys, have);
    case SamePod => problem := CheckPod(key, have);
    case SameRoute => problem := CheckRoute(key, have);
    case Exists => problem := None;
    case SameData => problem := None;
    case SameService => problem := None;
  }

  /* The state of a container that cannot start, or that has ended. */
  predicate IsBad(c: ContainerState) {
    || c.waiting == Some("ImagePullBackOff") || c.waiting == Some("ErrImagePull")
    || (c.waiting == None && c.terminated)
  }

  /** A pod passes exactly when no container fails to pull its image or has ended,
      and some condition says Ready; else the first container in trouble, if there
      is one, sets severity and reason. */
  lemma PodProblemMeaning(key: Key, pod: Obj)
    requires pod.Pod?
    ensures PodProblem(key, pod) == None <==>
      (forall c | c in pod.podStatus.containers :: !IsBad(c)) &&
      Condition("Ready", "True") in pod.podStatus.conditions
    ensures
      && (forall c | c in pod.podStatus.containers :: !IsBad(c))
      && Condition("Ready", "True") !in pod.podStatus.conditions
      ==> PodProblem(key, pod) == Some(Problem(Pending, PodNotReady(key)))
    ensures forall i: nat | i < |pod.podStatus.containers| :: var cs := pod.podStatus.containers;
      IsBad(cs[i]) && (forall j | 0 <= j < i :: !IsBad(cs[j])) ==>
      PodProblem(key, pod) == Some(if cs[i].waiting.Some? then Problem(Error, CannotPullImage(key))
                                   else Problem(Pending, TerminatedContainer(key)))
  {
    var cs := pod.podStatus.containers;
    assert forall c :: IsBad(c) <==> PullFails(c) || HasDied(c);
    forall i: nat | i < |cs| && IsBad(cs[i]) && forall j | 0 <= j < i :: !IsBad(cs[j]) ensures FirstBad(cs) == i {
      FirstBadAt(cs, i);
    }
  }

  /** The first Admitted condition of any ingress decides: with status True the
      route passes, with another one it is refused, and without any its state is
      not known yet. */
  lemma RouteProblemMeaning(key: Key, route: Obj)
    requires route.Route?
    ensures var cs := Conditions(route.ingress);
      && (RouteProblem(key, route) == None <==>
            exists i: nat | i < |cs| ::
              cs[i] == Condition("Admitted", "True") && forall j | 0 <= j < i :: cs[j].name != "Admitted")
      && (RouteProblem(key, route) == Some(Problem(Pending, RouteUnknown(key))) <==>
            forall c | c in cs :: c.name != "Admitted")
      && (RouteProblem(key, route) == Some(Problem(Error, RouteNotAdmitted(key))) <==>
            exists i: nat | i < |cs| ::
              cs[i].name == "Admitted" && cs[i].status != "True" && forall j | 0 <= j < i :: cs[j].name != "Admitted")
  {
    hide FirstAdmitted;
    var cs := Conditions(route.ingress);
    var first := FirstAdmitted(cs);
    if first < |cs| { assert cs[first] in cs; }
    forall i: nat | i < |cs| && cs[i].name == "Admitted" && forall j | 0 <= j < i :: cs[j].name != "Admitted"
      ensures first == i
    {
      FirstAdmittedAt(cs, i);
    }
    if RouteProblem(key, route) == None {
      assert cs[first] == Condition("Admitted", "True");
    }
  }
}
