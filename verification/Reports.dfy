/**
  What the status says when something is missing or fails (controllers/horreum_controller.go:299-364
  and 428-440, utils.go:92-97): which call failed, on which object, and what a
  resource waits for; and that what is said last is stored.
 */
module Reports {
  import opened Wrappers
  import opened Resources
  import opened HorreumApi
  import opened Matching
  import opened Worlds
  import opened Plans
  import opened Steps
  import opened Effects
  import opened Builders
  import opened Reconciling
  import opened Safety
  import opened Endings
  import opened Statuses
  import opened Credentials
  import Names

  /* One complaint was added. */
  predicate Notes(s: Run, t: Run, phase: Phase, reason: Reason) {
    |t.notes| == |s.notes| + 1 && s.notes <= t.notes &&
    t.notes[|s.notes|].phase == phase && t.notes[|s.notes|].reason == reason
  }

  /* The last call, if it was answered, stored the status. */
  predicate Stored(o: Oracle, t: Run) {
    t.w.clock > 0 && (o.reply(t.w.clock - 1) == Ok && t.w.cr.Some? ==> t.w.cr.value.status == t.st)
  }

  /* The run stops and says why; it may be cut short while it stores that. */
  predicate Gives(o: Oracle, s: Run, t: Run, phase: Phase, reason: Reason, verdict: Verdict) {
    Notes(s, t, phase, reason) && t.halt in {Some(verdict), Some(Crashed)} && Stored(o, t)
  }

  predicate Fails(o: Oracle, s: Run, t: Run, reason: Reason) {
    Gives(o, s, t, Error, reason, Failed)
  }

  predicate Silent(s: Run, t: Run) {
    t.notes == s.notes && t.st == s.st
  }

  predicate Errs(reply: Reply) {
    reply == Refused || reply == Lost
  }

  lemma QuitGives(o: Oracle, s: Run, phase: Phase, reason: Reason, verdict: Verdict)
    requires s.halt == None
    ensures Gives(o, s, Quit(o, s, phase, reason, verdict), phase, reason, verdict)
  {
  }

  /* What is said of an object that is to be created by the call of this number. */
  predicate Creates(o: Oracle, s: Run, t: Run, want: Manifest, call: nat) {
    match o.reply(call)
    case Ok => t.halt == None && Notes(s, t, Pending, Creating(want.key))
    case Crash => t.halt == Some(Crashed) && Silent(s, t)
    case _ => Fails(o, s, t, CannotCreate(want.key))
  }

  lemma CreateStepReports(o: Oracle, p: Plan, s: Run, want: Manifest)
    requires s.halt == None && want.key.ns == s.w.ns && want.key !in s.w.home
    ensures Creates(o, s, CreateStep(o, p, s, want), want, s.w.clock)
  {
    hide Live, Quit;
    QuitGives(o, s.(w := Create(o, s.w, p.owner, want).0), Error, CannotCreate(want.key), Failed);
  }

  lemma ReplaceStepReports(o: Oracle, p: Plan, s: Run, want: Manifest)
    requires s.halt == None && want.key.ns == s.w.ns && want.key in s.w.home
    ensures var t, n := ReplaceStep(o, p, s, want), s.w.clock;
      match o.reply(n)
      case Ok => Creates(o, s, t, want, n + 1)
      case Crash => t.halt == Some(Crashed) && Silent(s, t)
      case _ => Fails(o, s, t, CannotDelete(want.key))
  {
    hide CreateStep, Quit;
    var u := s.(w := Delete(o, s.w, want.key).0);
    QuitGives(o, u, Error, CannotDelete(want.key), Failed);
    if o.reply(s.w.clock) == Ok { CreateStepReports(o, p, u, want); }
  }

  /** ensureSame, answer by answer: the status names the object and the first of
      the calls Get, Delete and Create that failed; a created object is reported as
      pending, and of one that matches exactly what its check complains about. */
  lemma EnsureSameReports(o: Oracle, p: Plan, s: Run, want: Manifest, mode: Mode)
    requires s.halt == None && want.key.ns == s.w.ns
    ensures var t, n, k := EnsureSame(o, p, s, want, mode).0, s.w.clock, want.key;
      match o.reply(n)
      case Crash => t.halt == Some(Crashed) && Silent(s, t)
      case Refused => Fails(o, s, t, CannotFind(k))
      case Lost => Fails(o, s, t, CannotFind(k))
      case Ok =>
        if k !in s.w.home then Creates(o, s, t, want, n + 1)
        else if Matches(mode, want, s.w.home[k]) then
          t.halt == None &&
          match CheckProblem(mode, k, s.w.home[k])
          case None => Silent(s, t)
          case Some(problem) => Notes(s, t, problem.phase, problem.reason)
        else
          match o.reply(n + 1)
          case Ok => Creates(o, s, t, want, n + 2)
          case Crash => t.halt == Some(Crashed) && Silent(s, t)
          case _ => Fails(o, s, t, CannotDelete(k))
  {
    hide CreateStep, ReplaceStep, Quit, Matches, CheckProblem;
    var u := s.(w := Get(o, s.w, want.key).0);
    QuitGives(o, u, Error, CannotFind(want.key), Failed);
    if want.key in s.w.home { ReplaceStepReports(o, p, u, want); } else { CreateStepReports(o, p, u, want); }
  }

  /** ensureDeleted, answer by answer. */
  lemma EnsureDeletedReports(o: Oracle, s: Run, k: Key)
    requires s.halt == None && k.ns == s.w.ns
    ensures var t, n := EnsureDeleted(o, s, k), s.w.clock;
      match o.reply(n)
      case Crash => t.halt == Some(Crashed) && Silent(s, t)
      case Refused => Fails(o, s, t, CannotFind(k))
      case Lost => Fails(o, s, t, CannotFind(k))
      case Ok =>
        if k !in s.w.home then t.halt == None && Silent(s, t)
        else
          match o.reply(n + 1)
          case Ok => t.halt == None && Silent(s, t)
          case Crash => t.halt == Some(Crashed) && Silent(s, t)
          case _ => Fails(o, s, t, CannotDelete(k))
  {
    hide Quit;
    var u := s.(w := Get(o, s.w, k).0);
    QuitGives(o, u, Error, CannotFind(k), Failed);
    QuitGives(o, u.(w := Delete(o, u.w, k).0), Error, CannotDelete(k), Failed);
  }

  /** A route whose secret cannot be read ends the run with a status that names the
      secret of the route itself, although it is the application's that was read. */
  lemma MissingTlsSecretReports(o: Oracle, p: Plan, s: Run, cr: Horreum, route: RouteSpec, suffix: string)
    requires s.halt == None && p.routes && p.owner.ns == s.w.ns && cr.ns == p.owner.ns
    requires cr.spec.route.kind in {"edge", "reencrypt", ""} && cr.spec.route.tls != ""
    ensures var t := BuildRoute(o, p, s, RouteTaskFor(cr, route, suffix, true)).0;
      match o.reply(s.w.clock)
      case Crash => t.halt == Some(Crashed) && Silent(s, t)
      case Ok =>
        if Key(SecretKind, cr.ns, cr.spec.route.tls) in s.w.home then t.halt == None && Silent(s, t)
        else Fails(o, s, t, CannotFindSecret(route.tls))
      case _ => Fails(o, s, t, CannotFindSecret(route.tls))
  {
    hide Quit, TlsFromSecret;
    var task := RouteTaskFor(cr, route, suffix, true);
    QuitGives(o, s.(w := Get(o, s.w, TlsKey(p, task)).0), Error, CannotFindSecret(route.tls), Failed);
  }

  // Waiting, and the end of a run

  /* The last complaint says what the resource waits for. */
  predicate Waits(t: Run, service: Manifest, access: Access) {
    t.notes != [] && t.notes[|t.notes| - 1].phase == Pending &&
    t.notes[|t.notes| - 1].reason ==
      if access.ByNodePort? then WaitingForNodePort(service.key) else WaitingForUrl(service.key)
  }

  lemma QuitWaits(o: Oracle, s: Run, service: Manifest, access: Access)
    requires s.halt == None
    ensures var reason := if access.ByNodePort? then WaitingForNodePort(service.key) else WaitingForUrl(service.key);
      var t := Quit(o, s, Pending, reason, Requeued);
      Waits(t, service, access) && Stored(o, t)
  {
  }

  lemma FindUrlWaits(o: Oracle, p: Plan, s: Run, service: Manifest, access: Access, route: Option<Manifest>)
    requires s.halt == None
    ensures var t := FindUrl(o, p, s, service, access, route).0;
      t.halt == Some(Requeued) ==> Waits(t, service, access) && Stored(o, t)
  {
    hide EnsureSame, Quit, NodeUrl, RouteUrl, Waits, Stored;
    EnsureSameEnds(o, p, s, service, SameService);
    var u := EnsureSame(o, p, s, service, SameService).0;
    if u.halt == None {
      QuitWaits(o, u, service, access);
      QuitWaits(o, u.(w := Get(o, u.w, service.key).0), service, access);
      if route.Some? {
        EnsureSameEnds(o, p, u, route.value, SameRoute);
        var v := EnsureSame(o, p, u, route.value, SameRoute).0;
        if v.halt == None { QuitWaits(o, v, service, access); }
      }
    }
  }

  lemma KeycloakUrlWaits(o: Oracle, p: Plan, s: Run, route: Option<Manifest>)
    requires s.halt == None
    ensures var t := KeycloakUrl(o, p, s, route).0;
      t.halt == Some(Requeued) ==> Waits(t, p.keycloakService, p.keycloakAccess) && Stored(o, t)
  {
    hide FindUrl, Waits, Stored;
    FindUrlWaits(o, p, s, p.keycloakService, p.keycloakAccess, route);
  }

  lemma FinishStores(o: Oracle, p: Plan, s: Run)
    requires s.halt == None
    ensures var t := Finish(o, p, s); t.halt == Some(Finished) ==> Stored(o, t)
  {
    hide EnsureSame;
    EnsureSameEnds(o, p, s, p.upload, Exists);
  }

  /** A run that asks to be run again has said last that it waits for a node port or
      for the URL of Keycloak or of the application, and it has stored that, if the
      call was answered; so has a run that finished, of the status it ended with. */
  lemma LastStatusIsStored(o: Oracle, p: Plan, s: Run)
    requires WellFormed(p) && InPlace(p, s) && s.halt == None
    ensures var t := Execute(o, p, s);
      && (t.halt == Some(Finished) ==> Stored(o, t))
      && (t.halt == Some(Requeued) ==>
            && Stored(o, t)
            && (Waits(t, p.keycloakService, p.keycloakAccess) || Waits(t, p.appService, p.appAccess)))
  {
    hide WellFormed, StagesOf, Execute, AllThere, Proceeds, Waits, Stored, UrlVerdicts;
    hide TrustPart, SecretsPart, PostgresPart, BuildRoute, Prologue, KeycloakUrl, KeycloakPart, FindUrl;
    hide AppPart, Finish;
    var g := StagesOf(o, p, s);
    StagesHold(o, p, s);
    StageSteps(o, p, s);
    FirstStage(o, p, s);
    StagesEnd(o, p, s);
    StagesHalt(p, g);
    if g.s4.halt == None { KeycloakUrlWaits(o, p, g.s4, g.keycloakRoute); }
    if g.s7.halt == None { FindUrlWaits(o, p, g.s7, p.appService, p.appAccess, g.appRoute); }
    if g.end.halt == Some(Finished) {
      FinishedWentThrough(o, p, s);
      FinishStores(o, p, g.s9);
    }
  }

  /* A stage that has halted is the last one. */
  lemma StagesHalt(p: Plan, g: Stages)
    requires Staged(p, g)
    ensures g.s4.halt.Some? ==> g.s5 == g.s4 && g.end == g.s4
    ensures g.s5.halt.Some? ==> g.end == g.s5
    ensures g.s7.halt.Some? ==> g.s8 == g.s7 && g.end == g.s7
    ensures g.s8.halt.Some? ==> g.end == g.s8
    ensures g.s9.halt.Some? ==> g.end == g.s9
    ensures g.s0.halt.Some? ==> g.end == g.s0
  {
    hide Explained, Summed, SameResource;
  }

  /** When a resource becomes Ready, its status names the secret with the
      credentials of the administrator, which the init container is given. */
  lemma ReadyNamesTheAdmin(o: Oracle, env: Env, w: World)
    requires Sound(w) && w.cr.Some? && w.cr.value.status.phase != Ready
    requires Reconcile(o, env, w).halt == Some(Finished) && Reconcile(o, env, w).st.phase == Ready
    ensures Reconcile(o, env, w).st.reason ==
      AdminPassword(SecretName(w.cr.value, w.cr.value.spec.adminSecret, "-admin"))
  {
    hide Execute, PlanOf, Fold, WellFormed;
    var cr, t := w.cr.value, Reconcile(o, env, w);
    var p := PlanOf(env, cr);
    AdminOfPlan(env, cr);
    if !p.hostMissing {
      ReconciledStatus(o, env, w);
      if t.notes != [] {
        var i: nat :| Decides(t.notes, i, t.st);
        Names.PlanIsWellFormed(env, cr);
        Names.PlanOwner(env, cr);
        NotesComplain(o, p, Run(Tick(o, w), cr.status, [], None), i);
      }
    } else {
      Names.PlanIsWellFormed(env, cr);
      Names.PlanOwner(env, cr);
      HostMissingNeverFinishes(o, p, Run(Tick(o, w), cr.status, [], None));
    }
  }

  lemma AdminOfPlan(env: Env, cr: Horreum)
    ensures PlanOf(env, cr).adminSecret == SecretName(cr, cr.spec.adminSecret, "-admin")
  {
    hide PostgresPod, PostgresConfigMap, PostgresService, KeycloakPod, KeycloakService, KeycloakRoute;
    hide AppPod, AppService, AppRoute, UploadConfig;
    hide DbAdminSecret, AppUserSecret, KeycloakAdminSecret, KeycloakDbSecret;
  }

  lemma NotesComplain(o: Oracle, p: Plan, s: Run, i: nat)
    requires WellFormed(p) && InPlace(p, s) && s.halt == None && s.notes == [] && !p.hostMissing
    requires i < |Execute(o, p, s).notes|
    ensures IsComplaint(Execute(o, p, s).notes[i])
  {
    hide WellFormed, Execute, Proceeds, Fold;
    var t := Execute(o, p, s);
    ExecuteProceeds(o, p, s);
    SummedUp(p, Prologue(o, p, s), t);
    assert t.notes[0..] == t.notes;
  }

  /** Without a node host where one is needed nothing is done but to say so. */
  lemma HostMissingNeverFinishes(o: Oracle, p: Plan, s: Run)
    requires WellFormed(p) && InPlace(p, s) && s.halt == None && p.hostMissing
    ensures Fails(o, s, Execute(o, p, s), NodeHostMissing) && Kept(s, Execute(o, p, s))
  {
    hide WellFormed, StagesOf, Execute, AllThere, Proceeds, Quit;
    StagesHold(o, p, s);
    FirstStage(o, p, s);
    QuitGives(o, s, Error, NodeHostMissing, Failed);
    StagesHalt(p, StagesOf(o, p, s));
  }
}
