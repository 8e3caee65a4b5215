/**
  What every step of a run keeps, whatever the API server answers and wherever
  the operator stops.  Proceeds(p, s, t) relates two states of one run: the log
  of changes explains the objects, every change is one the operator may make,
  and the status is the fold of the setStatus calls.
 */
module Effects {
  import opened Wrappers
  import opened Trees
  import opened Resources
  import opened HorreumApi
  import opened Matching
  import opened Worlds
  import opened Plans
  import opened Steps

  // Changes

  function Apply(home: map<Key, Obj>, e: Event): map<Key, Obj> {
    match e
    case Made(m, obj, _) => home[m.key := obj]
    case Dropped(k, _) => home - {k}
  }

  /* The objects after a sequence of changes. */
  function Replay(home: map<Key, Obj>, es: seq<Event>): map<Key, Obj> {
    if es == [] then home else Apply(Replay(home, es[..|es| - 1]), es[|es| - 1])
  }

  /* Each change was made to the objects that the changes before it had left. */
  predicate Chained(home: map<Key, Obj>, es: seq<Event>) {
    forall i | 0 <= i < |es| :: es[i].before == Replay(home, es[..i])
  }

  /* Secrets and config maps the operator itself provides before it creates a pod. */
  function Provided(p: Plan): set<Key> {
    SecretKeys(p) + {p.trustKey} + (if p.routes then {} else CertKeys(p))
  }

  function ProvidedFor(p: Plan, pod: Key): set<Key> {
    Provided(p) + if pod == p.postgresPod.key then {p.postgresMap.key} else {}
  }

  /* The pods that are ever asked for: those of the three components, the
     latter two for some URLs. */
  ghost predicate IsPodOf(p: Plan, m: Manifest) {
    || m == p.postgresPod
    || (exists u: string :: p.keycloakPod(u) == Some(m))
    || (exists u: string, v: string :: p.appPod(u, v) == m)
  }

  ghost predicate Grounded(p: Plan, m: Manifest, home: map<Key, Obj>) {
    m.PodM? ==>
      IsPodOf(p, m) && forall k | k in PodRefs(p.owner.ns, m.spec) && k in ProvidedFor(p, m.key) :: k in home
  }

  /* What an object must be to stand for a manifest. */
  predicate Represents(m: Manifest, obj: Obj) {
    match m
    case PodM(_, labels, spec) => obj.Pod? && obj.labels == labels && Derives(Encode(spec), obj.spec)
    case ServiceM(_, serviceType, ports, selector) =>
      obj.Service? && obj.serviceType == serviceType && SamePorts(ports, obj.ports) && obj.selector == selector
    case RouteM(_, host, subdomain, target, tls) =>
      obj.Route? && (host == "" || obj.host == host) && obj.subdomain == subdomain &&
      obj.target == target && obj.tls == tls && obj.ingress == []
    case SecretM(_, data) => obj.Secret? && obj.data == data
    case ConfigMapM(_, texts, binary) => obj.ConfigMap? && obj.texts == texts && obj.binary == binary
  }

  predicate Deletable(p: Plan, k: Key) {
    k.kind == PodKind || k.kind == ServiceKind || k.kind == RouteKind || k == p.postgresMap.key
  }

  /* A change the operator may make. */
  ghost predicate Legal(p: Plan, e: Event) {
    && EventKey(e) in Footprint(p)
    && (e.Made? ==>
          && e.what.key !in e.before
          && e.result.owner == p.owner
          && Represents(e.what, e.result)
          && Grounded(p, e.what, e.before))
    && (e.Dropped? ==> e.key in e.before && Deletable(p, e.key))
  }

  // Status

  /* Phase, reason and time after a sequence of setStatus calls. */
  function Fold(st: Status, notes: seq<Note>): Status {
    if notes == [] then st
    else
      var before := Fold(st, notes[..|notes| - 1]);
      var note := notes[|notes| - 1];
      if before.phase == Error && note.phase == Pending then before
      else before.(phase := note.phase, reason := note.reason, lastUpdate := note.time)
  }

  predicate SameSummary(a: Status, b: Status) {
    a.phase == b.phase && a.reason == b.reason && a.lastUpdate == b.lastUpdate
  }

  predicate IsComplaint(n: Note) {
    n.phase == Pending || n.phase == Error
  }

  // Steps of one run

  predicate SameResource(a: Option<Horreum>, b: Option<Horreum>) {
    a.Some? == b.Some? && (a.Some? ==> b.value == a.value.(status := b.value.status))
  }

  /* The changes explain the objects, and each of them is legal. */
  ghost predicate Explained(p: Plan, before: map<Key, Obj>, es: seq<Event>, after: map<Key, Obj>) {
    after == Replay(before, es) && Chained(before, es) && forall i | 0 <= i < |es| :: Legal(p, es[i])
  }

  predicate Summed(before: Status, ns: seq<Note>, after: Status) {
    SameSummary(after, Fold(before, ns)) && forall i | 0 <= i < |ns| :: IsComplaint(ns[i])
  }

  ghost predicate Proceeds(p: Plan, s: Run, t: Run) {
    && (s.halt.Some? ==> t == s)
    && t.w.ns == s.w.ns && SameResource(s.w.cr, t.w.cr)
    && s.w.log <= t.w.log && s.notes <= t.notes
    && Explained(p, s.w.home, t.w.log[|s.w.log|..], t.w.home)
    && Summed(s.st, t.notes[|s.notes|..], t.st)
  }

  lemma ReplayAppend(home: map<Key, Obj>, a: seq<Event>, b: seq<Event>)
    ensures Replay(home, a + b) == Replay(Replay(home, a), b)
    decreases |b|
  {
    if b == [] {
      assert a + b == a;
    } else {
      assert (a + b)[..|a + b| - 1] == a + b[..|b| - 1];
      ReplayAppend(home, a, b[..|b| - 1]);
    }
  }

  lemma ChainedAppend(home: map<Key, Obj>, a: seq<Event>, b: seq<Event>)
    requires Chained(home, a) && Chained(Replay(home, a), b)
    ensures Chained(home, a + b)
  {
    forall i | 0 <= i < |a + b| ensures (a + b)[i].before == Replay(home, (a + b)[..i]) {
      if i < |a| {
        assert (a + b)[..i] == a[..i];
      } else {
        assert (a + b)[..i] == a + b[..i - |a|];
        ReplayAppend(home, a, b[..i - |a|]);
      }
    }
  }

  lemma FoldSummary(a: Status, b: Status, notes: seq<Note>)
    requires SameSummary(a, b)
    ensures SameSummary(Fold(a, notes), Fold(b, notes))
  {
    if notes != [] {
      FoldSummary(a, b, notes[..|notes| - 1]);
    }
  }

  lemma FoldAppend(st: Status, a: seq<Note>, b: seq<Note>)
    ensures Fold(st, a + b) == Fold(Fold(st, a), b)
    decreases |b|
  {
    if b == [] {
      assert a + b == a;
    } else {
      assert (a + b)[..|a + b| - 1] == a + b[..|b| - 1];
      FoldAppend(st, a, b[..|b| - 1]);
    }
  }

  lemma ExplainedAppend(p: Plan, h0: map<Key, Obj>, a: seq<Event>, h1: map<Key, Obj>, b: seq<Event>, h2: map<Key, Obj>)
    requires Explained(p, h0, a, h1) && Explained(p, h1, b, h2)
    ensures Explained(p, h0, a + b, h2)
  {
    hide Legal, Chained;
    ReplayAppend(h0, a, b);
    ChainedAppend(h0, a, b);
  }

  lemma SummedAppend(s0: Status, a: seq<Note>, s1: Status, b: seq<Note>, s2: Status)
    requires Summed(s0, a, s1) && Summed(s1, b, s2)
    ensures Summed(s0, a + b, s2)
  {
    FoldAppend(s0, a, b);
    FoldSummary(s1, Fold(s0, a), b);
  }

  lemma ProceedsReflexive(p: Plan, s: Run)
    ensures Proceeds(p, s, s)
  {
    hide Legal;
    assert s.w.log[|s.w.log|..] == [] && s.notes[|s.notes|..] == [];
  }

  lemma ProceedsTransitive(p: Plan, s: Run, t: Run, u: Run)
    requires Proceeds(p, s, t) && Proceeds(p, t, u)
    ensures Proceeds(p, s, u)
  {
    hide Explained, Summed;
    var a, b := t.w.log[|s.w.log|..], u.w.log[|t.w.log|..];
    assert u.w.log[|s.w.log|..] == a + b;
    ExplainedAppend(p, s.w.home, a, t.w.home, b, u.w.home);
    var m, n := t.notes[|s.notes|..], u.notes[|t.notes|..];
    assert u.notes[|s.notes|..] == m + n;
    SummedAppend(s.st, m, t.st, n, u.st);
  }

  // The steps

  lemma LiveRepresents(o: Oracle, n: nat, owner: Owner, m: Manifest)
    ensures Represents(m, Live(o, n, owner, m)) && Live(o, n, owner, m).owner == owner
  {
    hide Encode;
    if m.PodM? {
      DerivesReflexive(Encode(m.spec));
    }
  }

  lemma IdleProceeds(p: Plan, s: Run, t: Run)
    requires s.halt == None
    requires t.w.ns == s.w.ns && t.w.home == s.w.home && t.w.log == s.w.log && SameResource(s.w.cr, t.w.cr)
    requires t.notes == s.notes && SameSummary(t.st, s.st)
    ensures Proceeds(p, s, t)
  {
    hide Legal;
    assert t.w.log[|s.w.log|..] == [] && t.notes[|s.notes|..] == [];
  }

  lemma NoteProceeds(o: Oracle, p: Plan, s: Run, phase: Phase, reason: Reason)
    requires s.halt == None && (phase == Pending || phase == Error)
    ensures Proceeds(p, s, SetStatus(o, s, phase, reason))
  {
    hide Legal;
    var t := SetStatus(o, s, phase, reason);
    assert t.w.log[|s.w.log|..] == [];
    var note := Note(phase, reason, o.now(s.w.clock));
    assert t.notes[|s.notes|..] == [note];
    assert Fold(s.st, [note][..0]) == s.st;
    assert SameSummary(t.st, Fold(s.st, [note]));
  }

  lemma QuitProceeds(o: Oracle, p: Plan, s: Run, phase: Phase, reason: Reason, verdict: Verdict)
    requires s.halt == None && (phase == Pending || phase == Error)
    ensures Proceeds(p, s, Quit(o, s, phase, reason, verdict))
    ensures Quit(o, s, phase, reason, verdict).halt.Some?
    ensures Quit(o, s, phase, reason, verdict).w.home == s.w.home
    ensures Quit(o, s, phase, reason, verdict).w.log == s.w.log
  {
    hide Legal, Proceeds;
    var t := SetStatus(o, s, phase, reason);
    NoteProceeds(o, p, s, phase, reason);
    IdleProceeds(p, t, Quit(o, s, phase, reason, verdict));
    ProceedsTransitive(p, s, t, Quit(o, s, phase, reason, verdict));
  }

  lemma ChangeProceeds(p: Plan, s: Run, t: Run, e: Event)
    requires s.halt == None
    requires t.w.ns == s.w.ns && SameResource(s.w.cr, t.w.cr)
    requires t.notes == s.notes && t.st == s.st
    requires t.w.log == s.w.log + [e] && t.w.home == Apply(s.w.home, e)
    requires e.before == s.w.home && Legal(p, e)
    ensures Proceeds(p, s, t)
  {
    hide Legal, Apply;
    assert t.w.log[|s.w.log|..] == [e] && t.notes[|s.notes|..] == [];
    assert Replay(s.w.home, [e][..0]) == s.w.home;
    assert Replay(s.w.home, [e]) == Apply(s.w.home, e);
  }

  /* The plan and the world are about the same namespace. */
  predicate Local(p: Plan, s: Run, k: Key) {
    k in Footprint(p) && k.ns == s.w.ns
  }

  lemma CreateProceeds(o: Oracle, p: Plan, s: Run, want: Manifest)
    requires s.halt == None && Local(p, s, want.key) && want.key !in s.w.home && Grounded(p, want, s.w.home)
    ensures Proceeds(p, s, s.(w := Create(o, s.w, p.owner, want).0))
  {
    hide Proceeds, Represents, Footprint, Grounded, Live;
    var (w, ack) := Create(o, s.w, p.owner, want);
    if w.log == s.w.log {
      IdleProceeds(p, s, s.(w := w));
    } else {
      LiveRepresents(o, s.w.clock, p.owner, want);
      ChangeProceeds(p, s, s.(w := w), Made(want, Live(o, s.w.clock, p.owner, want), s.w.home));
    }
  }

  lemma DeleteProceeds(o: Oracle, p: Plan, s: Run, k: Key)
    requires s.halt == None && Local(p, s, k) && Deletable(p, k)
    ensures Proceeds(p, s, s.(w := Delete(o, s.w, k).0))
  {
    hide Proceeds, Footprint, Deletable;
    var (w, ack) := Delete(o, s.w, k);
    if w.log == s.w.log {
      IdleProceeds(p, s, s.(w := w));
    } else {
      ChangeProceeds(p, s, s.(w := w), Dropped(k, s.w.home));
    }
  }

  // ensureSame, ensureDeleted and create-if-missing

  predicate Fits(mode: Mode, want: Manifest) {
    match mode
    case Exists => true
    case HasKeys(_) => true
    case SameData => want.ConfigMapM?
    case SamePod => want.PodM?
    case SameService => want.ServiceM?
    case SameRoute => want.RouteM?
  }

  predicate Kept(s: Run, t: Run) {
    t.w.home == s.w.home && t.w.log == s.w.log
  }

  predicate CreatedNow(s: Run, t: Run, want: Manifest) {
    && want.key !in s.w.home && want.key in t.w.home
    && t.w.home == s.w.home[want.key := t.w.home[want.key]]
    && Represents(want, t.w.home[want.key])
    && |t.w.log| == |s.w.log| + 1
  }

  predicate DroppedNow(s: Run, t: Run, k: Key) {
    k in s.w.home && t.w.home == s.w.home - {k} && |t.w.log| == |s.w.log| + 1
  }

  predicate ReplacedNow(s: Run, t: Run, want: Manifest) {
    && want.key in s.w.home && want.key in t.w.home
    && t.w.home == s.w.home[want.key := t.w.home[want.key]]
    && Represents(want, t.w.home[want.key])
    && |t.w.log| == |s.w.log| + 2
  }

  predicate SameUrls(s: Run, t: Run) {
    t.st.publicUrl == s.st.publicUrl && t.st.keycloakUrl == s.st.keycloakUrl
  }

  /* What ensureSame does to the objects, and what its silence means. */
  predicate Settled(s: Run, t: Run, want: Manifest, mode: Mode) {
    var k := want.key;
    && (s.halt.Some? ==> t == s)
    && SameUrls(s, t) && t.w.ns == s.w.ns
    && (|| Kept(s, t)
        || CreatedNow(s, t, want)
        || (k in s.w.home && !Matches(mode, want, s.w.home[k]) &&
            (ReplacedNow(s, t, want) || (DroppedNow(s, t, k) && t.halt.Some?))))
    && (t.halt == None ==> k in t.w.home && Matches(mode, want, t.w.home[k]))
    && (t.halt == None && t.notes == s.notes ==>
          Kept(s, t) && t.st == s.st && CheckProblem(mode, k, t.w.home[k]) == None)
  }

  lemma RepresentativeMatches(mode: Mode, want: Manifest, obj: Obj)
    requires Fits(mode, want) && Represents(want, obj)
    ensures Matches(mode, want, obj)
  {
    hide Encode;
  }

  lemma CreateStepSettles(o: Oracle, p: Plan, s: Run, want: Manifest)
    requires s.halt == None && Local(p, s, want.key) && want.key !in s.w.home && Grounded(p, want, s.w.home)
    ensures var t := CreateStep(o, p, s, want);
      && Proceeds(p, s, t)
      && (Kept(s, t) || CreatedNow(s, t, want))
      && (t.halt == None ==> want.key in t.w.home && CreatedNow(s, t, want) && t.notes != s.notes)
      && SameUrls(s, t) && t.w.ns == s.w.ns
  {
    hide Proceeds, Represents, Footprint, Grounded, Live;
    CreateProceeds(o, p, s, want);
    LiveRepresents(o, s.w.clock, p.owner, want);
    var (w, ack) := Create(o, s.w, p.owner, want);
    var u := s.(w := w);
    match ack
    case Gone => IdleProceeds(p, u, Stop(u, Crashed));
      ProceedsTransitive(p, s, u, Stop(u, Crashed));
    case Denied =>
      QuitProceeds(o, p, u, Error, CannotCreate(want.key), Failed);
      ProceedsTransitive(p, s, u, Quit(o, u, Error, CannotCreate(want.key), Failed));
    case Done =>
      NoteProceeds(o, p, u, Pending, Creating(want.key));
      ProceedsTransitive(p, s, u, SetStatus(o, u, Pending, Creating(want.key)));
  }

  lemma ReplaceStepSettles(o: Oracle, p: Plan, s: Run, want: Manifest)
    requires s.halt == None && Local(p, s, want.key) && Deletable(p, want.key)
    requires want.key in s.w.home && Grounded(p, want, s.w.home - {want.key})
    ensures var t := ReplaceStep(o, p, s, want);
      && Proceeds(p, s, t)
      && (Kept(s, t) || ReplacedNow(s, t, want) || (DroppedNow(s, t, want.key) && t.halt.Some?))
      && (t.halt == None ==> ReplacedNow(s, t, want) && t.notes != s.notes)
      && (t.halt == None ==> want.key in t.w.home)
      && SameUrls(s, t) && t.w.ns == s.w.ns
  {
    hide Proceeds, Represents, Footprint, Grounded, Deletable, CreateStep;
    DeleteProceeds(o, p, s, want.key);
    var (w, ack) := Delete(o, s.w, want.key);
    var u := s.(w := w);
    match ack
    case Gone => IdleProceeds(p, u, Stop(u, Crashed));
      ProceedsTransitive(p, s, u, Stop(u, Crashed));
    case Denied =>
      QuitProceeds(o, p, u, Error, CannotDelete(want.key), Failed);
      ProceedsTransitive(p, s, u, Quit(o, u, Error, CannotDelete(want.key), Failed));
    case Done =>
      CreateStepSettles(o, p, u, want);
      ProceedsTransitive(p, s, u, CreateStep(o, p, u, want));
      var t := CreateStep(o, p, u, want);
      assert t.halt == None ==> t.w.home == s.w.home[want.key := t.w.home[want.key]];
  }

  /* The preconditions under which ensureSame keeps to the operator's own objects. */
  ghost predicate Proper(p: Plan, s: Run, want: Manifest, mode: Mode) {
    && Local(p, s, want.key) && Fits(mode, want)
    && (mode.Exists? || mode.HasKeys? || Deletable(p, want.key))
    && (s.halt == None ==> Grounded(p, want, s.w.home - {want.key}))
  }

  lemma EnsureSameSettles(o: Oracle, p: Plan, s: Run, want: Manifest, mode: Mode)
    requires Proper(p, s, want, mode)
    ensures var (t, out) := EnsureSame(o, p, s, want, mode);
      && Proceeds(p, s, t) && Settled(s, t, want, mode)
      && (t.halt == None ==> out == if want.key in s.w.home then Some(s.w.home[want.key]) else None)
  {
    hide Proceeds, Represents, Footprint, Deletable, CreateStep, ReplaceStep, CheckStep, Matches;
    hide CheckProblem, Fits, Quit;
    var (t, out) := EnsureSame(o, p, s, want, mode);
    if s.halt.Some? {
      ProceedsReflexive(p, s);
      return;
    }
    var (w, fetch) := Get(o, s.w, want.key);
    var u := s.(w := w);
    IdleProceeds(p, s, u);
    match fetch
    case Died => IdleProceeds(p, s, t);
    case Unavailable =>
      QuitProceeds(o, p, u, Error, CannotFind(want.key), Failed);
      QuitKeepsUrls(o, u, Error, CannotFind(want.key), Failed);
      ProceedsTransitive(p, s, u, t);
    case NotFound =>
      assert s.w.home - {want.key} == s.w.home;
      CreateSettles(o, p, s, u, want, mode);
    case Found(have) =>
      if Matches(mode, want, have) {
        CheckStepProceeds(o, p, u, want.key, mode, have);
        ProceedsTransitive(p, s, u, t);
      } else {
        ReplaceSettles(o, p, s, u, want, mode);
      }
  }

  /* The state after the Get of ensureSame. */
  ghost predicate Fetched(p: Plan, s: Run, u: Run) {
    s.halt == None && u == s.(w := u.w) && Kept(s, u) && u.w.ns == s.w.ns && Proceeds(p, s, u)
  }

  lemma CreateSettles(o: Oracle, p: Plan, s: Run, u: Run, want: Manifest, mode: Mode)
    requires Fetched(p, s, u) && Local(p, u, want.key) && Fits(mode, want)
    requires want.key !in u.w.home && Grounded(p, want, u.w.home)
    ensures Proceeds(p, s, CreateStep(o, p, u, want)) && Settled(s, CreateStep(o, p, u, want), want, mode)
  {
    hide Proceeds, Represents, Footprint, CreateStep, Matches, CheckProblem, Fits;
    var t := CreateStep(o, p, u, want);
    CreateStepSettles(o, p, u, want);
    ProceedsTransitive(p, s, u, t);
    if t.halt == None { RepresentativeMatches(mode, want, t.w.home[want.key]); }
  }

  lemma ReplaceSettles(o: Oracle, p: Plan, s: Run, u: Run, want: Manifest, mode: Mode)
    requires Fetched(p, s, u) && Proper(p, s, want, mode)
    requires want.key in u.w.home && !Matches(mode, want, u.w.home[want.key])
    ensures Proceeds(p, s, ReplaceStep(o, p, u, want)) && Settled(s, ReplaceStep(o, p, u, want), want, mode)
  {
    hide Proceeds, Represents, Footprint, Deletable, ReplaceStep, Matches, CheckProblem, Fits;
    var t := ReplaceStep(o, p, u, want);
    UnmatchedMode(mode, want, u.w.home[want.key]);
    ReplaceStepSettles(o, p, u, want);
    ProceedsTransitive(p, s, u, t);
    if t.halt == None { RepresentativeMatches(mode, want, t.w.home[want.key]); }
  }

  lemma UnmatchedMode(mode: Mode, want: Manifest, have: Obj)
    requires !Matches(mode, want, have)
    ensures !mode.Exists? && !mode.HasKeys?
  {
  }

  lemma QuitKeepsUrls(o: Oracle, s: Run, phase: Phase, reason: Reason, verdict: Verdict)
    ensures SameUrls(s, Quit(o, s, phase, reason, verdict))
    ensures Quit(o, s, phase, reason, verdict).w.ns == s.w.ns
  {
  }

  lemma CheckStepProceeds(o: Oracle, p: Plan, s: Run, key: Key, mode: Mode, have: Obj)
    requires s.halt == None
    ensures var t := CheckStep(o, s, key, mode, have);
      && Proceeds(p, s, t) && SameUrls(s, t) && t.w == s.w && t.halt == None
      && (t.notes == s.notes ==> t == s && CheckProblem(mode, key, have) == None)
  {
    hide Proceeds, CheckProblem;
    CheckSeverity(mode, key, have);
    match CheckProblem(mode, key, have)
    case None => ProceedsReflexive(p, s);
    case Some(problem) => NoteProceeds(o, p, s, problem.phase, problem.reason);
  }

  /* What ensureDeleted does. */
  predicate Cleared(s: Run, t: Run, k: Key) {
    && (s.halt.Some? ==> t == s)
    && SameUrls(s, t) && t.w.ns == s.w.ns
    && (Kept(s, t) || DroppedNow(s, t, k))
    && (t.halt == None ==> k !in t.w.home && t.st == s.st && t.notes == s.notes)
  }

  lemma EnsureDeletedClears(o: Oracle, p: Plan, s: Run, k: Key)
    requires Local(p, s, k) && Deletable(p, k)
    ensures Proceeds(p, s, EnsureDeleted(o, s, k)) && Cleared(s, EnsureDeleted(o, s, k), k)
  {
    hide Proceeds, Footprint, Deletable, Quit;
    if s.halt.Some? {
      ProceedsReflexive(p, s);
      return;
    }
    var t := EnsureDeleted(o, s, k);
    var (w, fetch) := Get(o, s.w, k);
    var u := s.(w := w);
    IdleProceeds(p, s, u);
    match fetch
    case Died => IdleProceeds(p, s, t);
    case NotFound =>
    case Unavailable =>
      QuitProceeds(o, p, u, Error, CannotFind(k), Failed);
      QuitKeepsUrls(o, u, Error, CannotFind(k), Failed);
      ProceedsTransitive(p, s, u, t);
    case Found(_) =>
      DeleteProceeds(o, p, u, k);
      var (w', ack) := Delete(o, u.w, k);
      var v := u.(w := w');
      ProceedsTransitive(p, s, u, v);
      match ack
      case Gone => IdleProceeds(p, v, t);
        ProceedsTransitive(p, s, v, t);
      case Denied =>
        QuitProceeds(o, p, v, Error, CannotDelete(k), Failed);
        QuitKeepsUrls(o, v, Error, CannotDelete(k), Failed);
        ProceedsTransitive(p, s, v, t);
      case Done =>
  }

  /* What create-if-missing does. */
  predicate Provisioned(s: Run, t: Run, k: Key, made: Option<Manifest>) {
    && (s.halt.Some? ==> t == s)
    && t.st == s.st && t.notes == s.notes && t.w.ns == s.w.ns
    && (Kept(s, t) || (made.Some? && CreatedNow(s, t, made.value)))
    && (t.halt == None ==> k in t.w.home)
  }

  lemma CreateIfMissingProvisions(o: Oracle, p: Plan, s: Run, k: Key, made: Option<Manifest>)
    requires Local(p, s, k) && (made.Some? ==> made.value.key == k && !made.value.PodM?)
    ensures Proceeds(p, s, CreateIfMissing(o, p, s, k, made))
    ensures Provisioned(s, CreateIfMissing(o, p, s, k, made), k, made)
  {
    hide Proceeds, Represents, Footprint, Live;
    if s.halt.Some? {
      ProceedsReflexive(p, s);
      return;
    }
    var t := CreateIfMissing(o, p, s, k, made);
    var (w, fetch) := Get(o, s.w, k);
    var u := s.(w := w);
    IdleProceeds(p, s, u);
    if fetch != NotFound || made == None {
      IdleProceeds(p, s, t);
    } else {
      CreateProceeds(o, p, u, made.value);
      LiveRepresents(o, u.w.clock, p.owner, made.value);
      var v := u.(w := Create(o, u.w, p.owner, made.value).0);
      ProceedsTransitive(p, s, u, v);
      IdleProceeds(p, v, v);
      if t.halt.Some? { IdleProceeds(p, v, t); }
      ProceedsTransitive(p, s, v, t);
    }
  }
}
