/**
  The status of a run in closed form: it climbs from Ready over Pending to
  Error, and what it says in the end is said by the last complaint of the
  highest severity (controllers/horreum_controller.go:428-440).
 */
module Statuses {
  import opened Wrappers
  import opened HorreumApi
  import opened Worlds
  import opened Plans
  import opened Steps
  import opened Builders
  import opened Reconciling
  import opened Effects
  import opened Safety
  import Names

  function Rank(phase: Phase): nat {
    match phase case Blank => 0 case Ready => 0 case Pending => 1 case Error => 2
  }

  ghost predicate Complaints(ns: seq<Note>) {
    forall i | 0 <= i < |ns| :: IsComplaint(ns[i])
  }

  /* The note with this number decides the status. */
  predicate Decides(ns: seq<Note>, i: nat, st: Status) {
    && i < |ns| && st.phase == ns[i].phase && st.reason == ns[i].reason && st.lastUpdate == ns[i].time
    && (forall j | 0 <= j < |ns| :: Rank(ns[j].phase) <= Rank(ns[i].phase))
    && (forall j | i < j < |ns| :: Rank(ns[j].phase) < Rank(ns[i].phase))
  }

  /** The fold in closed form: without complaints nothing changes; otherwise the
      last one of the highest severity decides phase, reason and time. */
  lemma {:induction false} FoldIsDecided(st: Status, ns: seq<Note>)
    requires Complaints(ns) && Rank(st.phase) == 0
    ensures ns == [] ==> Fold(st, ns) == st
    ensures ns != [] ==> exists i: nat :: Decides(ns, i, Fold(st, ns))
    decreases |ns|
  {
    if ns != [] {
      var l := |ns| - 1;
      var before, note := Fold(st, ns[..l]), ns[l];
      assert IsComplaint(note);
      FoldIsDecided(st, ns[..l]);
      if l == 0 || before.phase != Error || note.phase != Pending {
        if l > 0 {
          var i: nat :| Decides(ns[..l], i, before);
          assert Rank(ns[..l][i].phase) <= Rank(note.phase) by { assert IsComplaint(ns[i]); }
          forall j | 0 <= j < l ensures Rank(ns[j].phase) <= Rank(note.phase) { assert ns[..l][j] == ns[j]; }
        }
        assert Decides(ns, l, Fold(st, ns));
      } else {
        var i: nat :| Decides(ns[..l], i, before);
        forall j | 0 <= j < l ensures ns[j] == ns[..l][j] { }
        assert Decides(ns, i, Fold(st, ns));
      }
    }
  }

  /** Within a run the status only climbs. */
  lemma FoldClimbs(st: Status, a: seq<Note>, b: seq<Note>)
    requires Complaints(a + b) && Rank(st.phase) == 0
    ensures Rank(Fold(st, a).phase) <= Rank(Fold(st, a + b).phase)
  {
    assert forall i | 0 <= i < |a| :: a[i] == (a + b)[i];
    FoldIsDecided(st, a);
    FoldIsDecided(st, a + b);
    if a != [] {
      var i: nat :| Decides(a, i, Fold(st, a));
      var j: nat :| Decides(a + b, j, Fold(st, a + b));
      assert Rank((a + b)[i].phase) <= Rank((a + b)[j].phase);
    }
  }

  /* The status a run starts its work with. */
  predicate IsFreshStart(p: Plan, before: Status, st: Status) {
    st.phase == Ready &&
    if before.phase == Ready then SameSummary(st, before) else st.reason == AdminPassword(p.adminSecret)
  }

  /** The status of every run that gets past its start: without complaints it is
      the one it started with, Ready; otherwise it is what the last complaint of
      the highest severity says. */
  lemma StatusIsDecided(o: Oracle, p: Plan, s: Run)
    requires WellFormed(p) && InPlace(p, s) && s.halt == None && s.notes == [] && !p.hostMissing
    ensures var t := Execute(o, p, s);
      if t.notes == [] then IsFreshStart(p, s.st, t.st) else exists i: nat :: Decides(t.notes, i, t.st)
  {
    hide Execute, Proceeds, WellFormed, Fold, Decides;
    var s0, t := Prologue(o, p, s), Execute(o, p, s);
    ExecuteProceeds(o, p, s);
    SummedUp(p, s0, t);
    assert t.notes[|s0.notes|..] == t.notes;
    FoldIsDecided(s0.st, t.notes);
    if t.notes != [] {
      var i: nat :| Decides(t.notes, i, Fold(s0.st, t.notes));
      SameDecision(t.notes, i, Fold(s0.st, t.notes), t.st);
    }
  }

  lemma SummedUp(p: Plan, s: Run, t: Run)
    requires Proceeds(p, s, t)
    ensures s.notes <= t.notes && Complaints(t.notes[|s.notes|..])
    ensures SameSummary(t.st, Fold(s.st, t.notes[|s.notes|..]))
  {
    hide Explained;
  }

  lemma SameDecision(ns: seq<Note>, i: nat, a: Status, b: Status)
    requires Decides(ns, i, a) && SameSummary(b, a)
    ensures Decides(ns, i, b)
  {
  }

  /** The same for the reconciler as a whole. */
  lemma ReconciledStatus(o: Oracle, env: Env, w: World)
    requires Sound(w) && w.cr.Some? && o.reply(w.clock) == Ok && !PlanOf(env, w.cr.value).hostMissing
    ensures var t := Reconcile(o, env, w);
      if t.notes == [] then IsFreshStart(PlanOf(env, w.cr.value), w.cr.value.status, t.st)
      else exists i: nat :: Decides(t.notes, i, t.st)
  {
    hide Execute, PlanOf, Decides, IsFreshStart;
    Names.PlanIsWellFormed(env, w.cr.value);
    Names.PlanOwner(env, w.cr.value);
    StatusIsDecided(o, PlanOf(env, w.cr.value), Run(Tick(o, w), w.cr.value.status, [], None));
  }
}
