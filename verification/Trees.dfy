/**
  Specification trees and the "derivative" comparison that comparePods applies
  to pod specs (controllers/horreum_controller.go:450).

  The comparison itself is a library function of k8s.io/apimachinery.  Derives
  states its relation: what is unset in the wanted tree is not compared, lists
  may be longer on the live side, everything else must agree.
 */
module Trees {

  datatype Tree =
    | Unset                              // a nil pointer
    | Text(text: string)                 // the empty string counts as unset
    | Number(number: int)
    | Flag(flag: bool)
    | Slice(items: seq<Tree>)            // the empty list counts as unset
    | Struct(fields: seq<Tree>)
    | Dict(entries: map<string, Tree>)   // the empty map counts as unset

  predicate IsUnset(t: Tree) {
    t == Unset || t == Text("") || t == Slice([]) || t == Dict(map[])
  }

  predicate Derives(want: Tree, have: Tree)
    decreases want
  {
    match want
    case Unset => true
    case Text(s) => s == "" || have == want
    case Number(_) => have == want
    case Flag(_) => have == want
    case Slice(ws) =>
      ws == [] ||
      (have.Slice? && |ws| <= |have.items| && forall i | 0 <= i < |ws| :: Derives(ws[i], have.items[i]))
    case Struct(ws) =>
      have.Struct? && |ws| == |have.fields| && forall i | 0 <= i < |ws| :: Derives(ws[i], have.fields[i])
    case Dict(ws) =>
      ws == map[] ||
      (have.Dict? && forall k | k in ws :: k in have.entries && Derives(ws[k], have.entries[k]))
  }

  lemma {:induction false} DerivesReflexive(t: Tree)
    ensures Derives(t, t)
  {
    match t
    case Unset =>
    case Text(_) =>
    case Number(_) =>
    case Flag(_) =>
    case Slice(ts) => forall i | 0 <= i < |ts| ensures Derives(ts[i], ts[i]) { DerivesReflexive(ts[i]); }
    case Struct(ts) => forall i | 0 <= i < |ts| ensures Derives(ts[i], ts[i]) { DerivesReflexive(ts[i]); }
    case Dict(ts) => forall k | k in ts ensures Derives(ts[k], ts[k]) { DerivesReflexive(ts[k]); }
  }

  lemma {:induction false} DerivesTransitive(a: Tree, b: Tree, c: Tree)
    requires Derives(a, b) && Derives(b, c)
    ensures Derives(a, c)
    decreases a
  {
    match a
    case Unset =>
    case Text(_) =>
    case Number(_) =>
    case Flag(_) =>
    case Slice(ts) =>
      if ts != [] {
        forall i | 0 <= i < |ts| ensures Derives(ts[i], c.items[i]) {
          DerivesTransitive(ts[i], b.items[i], c.items[i]);
        }
      }
    case Struct(ts) =>
      forall i | 0 <= i < |ts| ensures Derives(ts[i], c.fields[i]) {
        DerivesTransitive(ts[i], b.fields[i], c.fields[i]);
      }
    case Dict(ts) =>
      if ts != map[] {
        forall k | k in ts ensures k in c.entries && Derives(ts[k], c.entries[k]) {
          assert k in b.entries;
          DerivesTransitive(ts[k], b.entries[k], c.entries[k]);
        }
      }
  }

  /* What an admission plugin may do to a tree: give a value to something unset,
     append to a list, add an entry to a map, and the same anywhere below. */
  predicate Admits(before: Tree, after: Tree)
    decreases before
  {
    IsUnset(before) || before == after ||
    (match before
     case Slice(bs) =>
       after.Slice? && |bs| <= |after.items| && forall i | 0 <= i < |bs| :: Admits(bs[i], after.items[i])
     case Struct(bs) =>
       after.Struct? && |bs| == |after.fields| && forall i | 0 <= i < |bs| :: Admits(bs[i], after.fields[i])
     case Dict(bs) =>
       after.Dict? && forall k | k in bs :: k in after.entries && Admits(bs[k], after.entries[k])
     case _ => false)
  }

  lemma {:induction false} AdmittedMatches(before: Tree, after: Tree)
    requires Admits(before, after)
    ensures Derives(before, after)
    decreases before
  {
    if before == after {
      DerivesReflexive(before);
    } else if !IsUnset(before) {
      match before
      case Slice(bs) =>
        forall i | 0 <= i < |bs| ensures Derives(bs[i], after.items[i]) { AdmittedMatches(bs[i], after.items[i]); }
      case Struct(bs) =>
        forall i | 0 <= i < |bs| ensures Derives(bs[i], after.fields[i]) { AdmittedMatches(bs[i], after.fields[i]); }
      case Dict(bs) =>
        forall k | k in bs ensures Derives(bs[k], after.entries[k]) { AdmittedMatches(bs[k], after.entries[k]); }
    }
  }

  /** However many plugins run one after the other, the tree the operator asked
      for is still a derivative of what ends up in the cluster. */
  lemma {:induction false} AdmissionChainMatches(stages: seq<Tree>)
    requires |stages| > 0
    requires forall i | 0 < i < |stages| :: Admits(stages[i - 1], stages[i])
    ensures Derives(stages[0], stages[|stages| - 1])
  {
    if |stages| == 1 {
      DerivesReflexive(stages[0]);
    } else {
      var init := stages[..|stages| - 1];
      AdmissionChainMatches(init);
      AdmittedMatches(stages[|stages| - 2], stages[|stages| - 1]);
      DerivesTransitive(stages[0], stages[|stages| - 2], stages[|stages| - 1]);
    }
  }

  /* A reference reading of the comparison, by paths.  A node that is not unset
     has a label; a path leads to a child by its position or its key. */

  datatype Step = At(index: nat) | Under(name: string)

  datatype Label = Missing | Leaf(leaf: Tree) | ListNode | StructNode(arity: nat) | DictNode

  function Child(t: Tree, step: Step): Tree {
    if step.At? && t.Slice? && step.index < |t.items| then t.items[step.index]
    else if step.At? && t.Struct? && step.index < |t.fields| then t.fields[step.index]
    else if step.Under? && t.Dict? && step.name in t.entries then t.entries[step.name]
    else Unset
  }

  predicate HasChild(t: Tree, step: Step) {
    || (step.At? && t.Slice? && step.index < |t.items|)
    || (step.At? && t.Struct? && step.index < |t.fields|)
    || (step.Under? && t.Dict? && step.name in t.entries)
  }

  function LabelOf(t: Tree): Label {
    if IsUnset(t) then Missing
    else match t
      case Slice(_) => ListNode
      case Struct(fs) => StructNode(|fs|)
      case Dict(_) => DictNode
      case _ => Leaf(t)
  }

  predicate HasPath(t: Tree, path: seq<Step>) {
    path == [] || (HasChild(t, path[0]) && HasPath(Child(t, path[0]), path[1..]))
  }

  function NodeAt(t: Tree, path: seq<Step>): Tree
    decreases path
  {
    if path == [] then t else NodeAt(Child(t, path[0]), path[1..])
  }

  /* Every path of the wanted tree exists in the live tree, and where the wanted
     tree has a set node the live tree has a node with the same label. */
  ghost predicate SameWhereSet(want: Tree, have: Tree) {
    forall path: seq<Step> | HasPath(want, path) :: AgreesAt(want, have, path)
  }

  predicate AgreesAt(want: Tree, have: Tree, path: seq<Step>) {
    && HasPath(have, path)
    && (!IsUnset(NodeAt(want, path)) ==> LabelOf(NodeAt(want, path)) == LabelOf(NodeAt(have, path)))
  }

  lemma {:induction false} DerivesAgreesAt(want: Tree, have: Tree, path: seq<Step>)
    requires Derives(want, have) && HasPath(want, path)
    ensures AgreesAt(want, have, path)
    decreases path
  {
    if path != [] {
      var step := path[0];
      assert HasChild(have, step) && Derives(Child(want, step), Child(have, step));
      DerivesAgreesAt(Child(want, step), Child(have, step), path[1..]);
    }
  }

  lemma AgreesBelow(want: Tree, have: Tree, step: Step)
    requires SameWhereSet(want, have) && HasChild(want, step)
    ensures HasChild(have, step) && SameWhereSet(Child(want, step), Child(have, step))
  {
    assert HasPath(want, [step]);
    assert AgreesAt(want, have, [step]);
    forall path: seq<Step> | HasPath(Child(want, step), path)
      ensures AgreesAt(Child(want, step), Child(have, step), path)
    {
      var longer := [step] + path;
      assert longer[0] == step && longer[1..] == path;
      assert HasPath(want, longer);
      assert AgreesAt(want, have, longer);
    }
  }

  lemma {:induction false} SameWhereSetDerives(want: Tree, have: Tree)
    requires SameWhereSet(want, have)
    ensures Derives(want, have)
    decreases want
  {
    assert HasPath(want, []);
    assert AgreesAt(want, have, []);
    match want
    case Unset =>
    case Text(_) =>
    case Number(_) =>
    case Flag(_) =>
    case Slice(ws) =>
      if ws != [] {
        forall i | 0 <= i < |ws| ensures i < |have.items| && Derives(ws[i], have.items[i]) {
          AgreesBelow(want, have, At(i));
          SameWhereSetDerives(ws[i], have.items[i]);
        }
        assert Derives(ws[|ws| - 1], have.items[|ws| - 1]);
      }
    case Struct(ws) =>
      forall i | 0 <= i < |ws| ensures Derives(ws[i], have.fields[i]) {
        AgreesBelow(want, have, At(i));
        SameWhereSetDerives(ws[i], have.fields[i]);
      }
    case Dict(ws) =>
      if ws != map[] {
        forall k | k in ws ensures k in have.entries && Derives(ws[k], have.entries[k]) {
          AgreesBelow(want, have, Under(k));
          SameWhereSetDerives(ws[k], have.entries[k]);
        }
      }
  }

  /** The recursive comparison is exactly "agree wherever the wanted tree is set". */
  lemma DerivesIffSameWhereSet(want: Tree, have: Tree)
    ensures Derives(want, have) <==> SameWhereSet(want, have)
  {
    if Derives(want, have) {
      forall path: seq<Step> | HasPath(want, path) ensures AgreesAt(want, have, path) {
        DerivesAgreesAt(want, have, path);
      }
    }
    if SameWhereSet(want, have) {
      SameWhereSetDerives(want, have);
    }
  }

  /** A live list matches a wanted one if and only if it is an element by element
      match of it followed by whatever else there is. */
  lemma MatchingLists(ws: seq<Tree>, have: Tree)
    requires ws != []
    ensures Derives(Slice(ws), have) <==>
      exists front: seq<Tree>, rest: seq<Tree> ::
        have == Slice(front + rest) && |front| == |ws| && forall i | 0 <= i < |ws| :: Derives(ws[i], front[i])
  {
    if Derives(Slice(ws), have) {
      var front, rest := have.items[..|ws|], have.items[|ws|..];
      assert have == Slice(front + rest);
    }
  }

  /** Edits of a list: when some elements are removed anywhere and others, that
      match none of the wanted ones, are inserted there, the result matches if
      and only if nothing was removed and nothing inserted before the end. */
  lemma ListDriftOnlyAtEnd(ws: seq<Tree>, inserted: seq<Tree>, at: nat, removed: nat)
    requires at + removed <= |ws|
    requires forall w, x | w in ws && x in inserted :: !Derives(w, x)
    ensures Derives(Slice(ws), Slice(ws[..at] + inserted + ws[at + removed..])) <==>
      at == |ws| || (removed == 0 && inserted == [])
  {
    var have := ws[..at] + inserted + ws[at + removed..];
    if at == |ws| || (removed == 0 && inserted == []) {
      assert ws <= have;
      forall i | 0 <= i < |ws| ensures Derives(ws[i], have[i]) { DerivesReflexive(ws[i]); }
    } else if inserted == [] {
      assert |have| < |ws|;
    } else {
      assert have[at] == inserted[0] && ws[at] in ws;
    }
  }

  // Two wanted trees and one live tree

  /* Wherever both trees set something they set the same; lists are compared as
     far as both go. */
  predicate Agree(a: Tree, b: Tree)
    decreases a
  {
    IsUnset(a) || IsUnset(b) || a == b ||
    (match a
     case Slice(xs) => b.Slice? && forall i | 0 <= i < |xs| && i < |b.items| :: Agree(xs[i], b.items[i])
     case Struct(xs) => b.Struct? && |xs| == |b.fields| && forall i | 0 <= i < |xs| :: Agree(xs[i], b.fields[i])
     case Dict(xs) => b.Dict? && forall k | k in xs && k in b.entries :: Agree(xs[k], b.entries[k])
     case _ => false)
  }

  /* The least tree that sets what either tree sets. */
  function Merge(a: Tree, b: Tree): Tree
    decreases a
  {
    if IsUnset(a) then b
    else if IsUnset(b) then a
    else match a
      case Slice(xs) =>
        if !b.Slice? then a
        else
          var n := if |xs| < |b.items| then |b.items| else |xs|;
          Slice(seq(n, i requires 0 <= i < n =>
            if i >= |xs| then b.items[i] else if i >= |b.items| then xs[i] else Merge(xs[i], b.items[i])))
      case Struct(xs) =>
        if !b.Struct? || |b.fields| != |xs| then a
        else Struct(seq(|xs|, i requires 0 <= i < |xs| => Merge(xs[i], b.fields[i])))
      case Dict(xs) =>
        if !b.Dict? then a
        else
          Dict(map k | k in xs.Keys + b.entries.Keys ::
            if k !in xs then b.entries[k] else if k !in b.entries then xs[k] else Merge(xs[k], b.entries[k]))
      case _ => a
  }

  /** Trees that agree are both matched by the tree that sets what either sets. */
  lemma {:induction false} MergeMatchesBoth(a: Tree, b: Tree)
    requires Agree(a, b)
    ensures Derives(a, Merge(a, b)) && Derives(b, Merge(a, b))
    decreases a
  {
    DerivesReflexive(a);
    DerivesReflexive(b);
    if !IsUnset(a) && !IsUnset(b) {
      match a
      case Slice(xs) => MergedItems(xs, b.items);
      case Struct(xs) =>
        forall i | 0 <= i < |xs| ensures Agree(xs[i], b.fields[i]) { if a == b { AgreeReflexive(xs[i]); } }
        forall i | 0 <= i < |xs|
          ensures Derives(xs[i], Merge(a, b).fields[i]) && Derives(b.fields[i], Merge(a, b).fields[i])
        {
          MergeMatchesBoth(xs[i], b.fields[i]);
        }
      case Dict(xs) => MergedEntries(xs, b.entries);
      case _ =>
    }
  }

  lemma {:induction false} MergedItems(xs: seq<Tree>, ys: seq<Tree>)
    requires xs != [] && ys != [] && Agree(Slice(xs), Slice(ys))
    ensures var merged := Merge(Slice(xs), Slice(ys)); Derives(Slice(xs), merged) && Derives(Slice(ys), merged)
    decreases Slice(xs), 0
  {
    var merged := Merge(Slice(xs), Slice(ys));
    forall i | 0 <= i < |xs| ensures Derives(xs[i], merged.items[i]) {
      DerivesReflexive(xs[i]);
      if i < |ys| {
        if xs == ys { AgreeReflexive(xs[i]); }
        MergeMatchesBoth(xs[i], ys[i]);
      }
    }
    forall i | 0 <= i < |ys| ensures Derives(ys[i], merged.items[i]) {
      DerivesReflexive(ys[i]);
      if i < |xs| {
        if xs == ys { AgreeReflexive(xs[i]); }
        MergeMatchesBoth(xs[i], ys[i]);
      }
    }
  }

  lemma {:induction false} MergedEntries(xs: map<string, Tree>, ys: map<string, Tree>)
    requires xs != map[] && ys != map[] && Agree(Dict(xs), Dict(ys))
    ensures var merged := Merge(Dict(xs), Dict(ys)); Derives(Dict(xs), merged) && Derives(Dict(ys), merged)
    decreases Dict(xs), 0
  {
    var merged := Merge(Dict(xs), Dict(ys));
    forall k | k in xs ensures Derives(xs[k], merged.entries[k]) {
      DerivesReflexive(xs[k]);
      if k in ys {
        if xs == ys { AgreeReflexive(xs[k]); }
        MergeMatchesBoth(xs[k], ys[k]);
      }
    }
    forall k | k in ys ensures Derives(ys[k], merged.entries[k]) {
      DerivesReflexive(ys[k]);
      if k in xs {
        if xs == ys { AgreeReflexive(xs[k]); }
        MergeMatchesBoth(xs[k], ys[k]);
      }
    }
  }

  lemma AgreeReflexive(t: Tree)
    ensures Agree(t, t)
  {
  }

  /** Trees that are matched by one live tree agree wherever both set something. */
  lemma {:induction false} BothMatchAgree(a: Tree, b: Tree, live: Tree)
    requires Derives(a, live) && Derives(b, live)
    ensures Agree(a, b)
    decreases a
  {
    if !IsUnset(a) && !IsUnset(b) {
      match a
      case Slice(xs) =>
        forall i | 0 <= i < |xs| && i < |b.items| ensures Agree(xs[i], b.items[i]) {
          BothMatchAgree(xs[i], b.items[i], live.items[i]);
        }
      case Struct(xs) =>
        forall i | 0 <= i < |xs| ensures Agree(xs[i], b.fields[i]) {
          BothMatchAgree(xs[i], b.fields[i], live.fields[i]);
        }
      case Dict(xs) =>
        forall k | k in xs && k in b.entries ensures Agree(xs[k], b.entries[k]) {
          BothMatchAgree(xs[k], b.entries[k], live.entries[k]);
        }
      case _ =>
    }
  }

  /* The one tree sets nothing that the other one leaves unset. */
  predicate Within(a: Tree, b: Tree)
    decreases a
  {
    IsUnset(a) || (!IsUnset(b) &&
    (match a
     case Slice(xs) => b.Slice? ==> |xs| <= |b.items| && forall i | 0 <= i < |xs| :: Within(xs[i], b.items[i])
     case Struct(xs) =>
       b.Struct? && |xs| == |b.fields| ==> forall i | 0 <= i < |xs| :: Within(xs[i], b.fields[i])
     case Dict(xs) => b.Dict? ==> forall k | k in xs :: k in b.entries && Within(xs[k], b.entries[k])
     case _ => true))
  }

  lemma {:induction false} DerivesWithin(a: Tree, b: Tree)
    requires Derives(a, b)
    ensures Within(a, b)
    decreases a
  {
    match a
    case Slice(xs) =>
      if xs != [] {
        forall i | 0 <= i < |xs| ensures Within(xs[i], b.items[i]) { DerivesWithin(xs[i], b.items[i]); }
      }
    case Struct(xs) =>
      forall i | 0 <= i < |xs| ensures Within(xs[i], b.fields[i]) { DerivesWithin(xs[i], b.fields[i]); }
    case Dict(xs) =>
      if xs != map[] {
        forall k | k in xs ensures Within(xs[k], b.entries[k]) { DerivesWithin(xs[k], b.entries[k]); }
      }
    case _ =>
  }

  lemma {:induction false} AgreeWithinDerives(a: Tree, b: Tree)
    requires Agree(a, b) && Within(a, b)
    ensures Derives(a, b)
    decreases a
  {
    if a == b {
      DerivesReflexive(a);
    } else if !IsUnset(a) {
      match a
      case Slice(xs) =>
        forall i | 0 <= i < |xs| ensures Derives(xs[i], b.items[i]) { AgreeWithinDerives(xs[i], b.items[i]); }
      case Struct(xs) =>
        forall i | 0 <= i < |xs| ensures Derives(xs[i], b.fields[i]) { AgreeWithinDerives(xs[i], b.fields[i]); }
      case Dict(xs) =>
        forall k | k in xs ensures Derives(xs[k], b.entries[k]) { AgreeWithinDerives(xs[k], b.entries[k]); }
      case _ =>
    }
  }

  /** To match is to agree and to set nothing more. */
  lemma DerivesIffAgrees(a: Tree, b: Tree)
    ensures Derives(a, b) <==> Agree(a, b) && Within(a, b)
  {
    if Derives(a, b) {
      DerivesReflexive(b);
      BothMatchAgree(a, b, b);
      DerivesWithin(a, b);
    }
    if Agree(a, b) && Within(a, b) {
      AgreeWithinDerives(a, b);
    }
  }
}
