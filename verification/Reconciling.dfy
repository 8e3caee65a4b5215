/** Reconcile from reading the resource on, and what connects one run to the next. */
module Reconciling {
  import opened Wrappers
  import opened HorreumApi
  import opened Worlds
  import opened Steps
  import opened Builders

  /* The namespace of the world is that of its resource. */
  predicate Sound(w: World) {
    w.cr.Some? ==> w.cr.value.ns == w.ns
  }

  /* controllers/horreum_controller.go:81-298 */
  function Reconcile(o: Oracle, env: Env, w: World): Run {
    var s := Run(Tick(o, w), NO_STATUS, [], None);
    match o.reply(w.clock)
    case Crash => Stop(s, Crashed)
    case Refused => Stop(s, Failed)
    case Lost => Stop(s, Failed)
    case Ok =>
      match w.cr
      case None => Stop(s, Ignored)
      case Some(cr) => Execute(o, PlanOf(env, cr), s.(st := cr.status))
  }
}
