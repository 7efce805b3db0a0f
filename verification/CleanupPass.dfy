/**
  The cleanup of an environment as a whole: CleanupComplete is set for a bound environment with a
  template only when every component is gone and every allocation settled.
 */
module CleanupPass {
  import opened Wrappers
  import opened Turns
  import opened Template
  import opened DependencyGraph
  import opened ComponentStatus
  import E = Environment
  import Lifecycle
  import L = LifecycleController
  import U = Undeploy
  import D = Deprovision

  datatype TemplateRead = Found(components: seq<ComponentSpec>) | Missing | Unreadable

  /** What the Jobs of the environment's components are observed as, and answer. */
  datatype World = World(seen: U.Sightings, accepts: string -> bool, found: D.Answers)

  function AnswerOf(template: TemplateRead): L.TemplateAnswer {
    match template
    case Found(_) => L.Found
    case Missing => L.Missing
    case Unreadable => L.Unreadable
  }

  function CleaningOf(verdict: U.Verdict): L.Cleaning {
    match verdict
    case Done => L.AllDone
    case Waiting => L.InProgress
    case Broken => L.Failing
  }

  /** Every component was gone when the pass began, and with the status it came to then, every
      allocation settled. */
  ghost predicate Clean(components: seq<ComponentSpec>, before: seq<Entry>, between: seq<Entry>, w: World) {
    U.AllGone(components, before, w.seen) && D.AllSettled(components, between, w.found)
  }

  /** undeployAll, by whatever levels it went. */
  method Undeploy(status: E.Env, components: seq<ComponentSpec>, w: World) returns (cleaning: L.Cleaning)
    modifies status
    ensures cleaning.AllDone? ==> U.AllGone(components, old(status.components), w.seen)
    ensures UniqueNames(components) ==> (cleaning.AllDone? <==> U.AllGone(components, old(status.components), w.seen))
  {
    hide U.AllGone, UniqueNames, KnownDependencies, Acyclic, U.TearDown;
    ghost var before := status.components;
    var verdict;
    ghost var levels, submitted;
    verdict, levels, submitted := U.UndeployAll(status, components, w.seen, w.accepts);
    if UniqueNames(components) && KnownDependencies(components) && Acyclic(components) {
      U.DoneMeansAllGone(components, levels, before, w.seen, w.accepts);
    } else {
      U.FlatDoneMeansAllGone(components, before, w.seen, w.accepts);
    }
    return CleaningOf(verdict);
  }

  method Deprovision(status: E.Env, components: seq<ComponentSpec>, w: World) returns (cleaning: L.Cleaning)
    modifies status
    ensures cleaning.AllDone? ==> D.AllSettled(components, old(status.components), w.found)
    ensures UniqueNames(components) ==>
            (cleaning.AllDone? <==> D.AllSettled(components, old(status.components), w.found))
  {
    hide D.AllSettled, UniqueNames, D.Safe;
    ghost var before := status.components;
    var verdict, removed;
    ghost var submitted;
    verdict, removed, submitted := D.DeprovisionShared(status, components, w.found);
    D.DoneMeansAllSettled(components, before, w.found);
    if UniqueNames(components) { var _ := D.DeprovisionMeans(before, components, w.found); }
    return CleaningOf(verdict);
  }

  /** reconcileDelete from the template on. A cleanup that goes on record is, for a bound
      environment with a template, a clean one; and with unique names a clean one is recorded. */
  method CleanUp(server: L.Server, read: nat, r: Lifecycle.Env, env: nat -> Turn<Lifecycle.Action>,
                 status: E.Env, template: TemplateRead, w: World)
    returns (ghost between: seq<Entry>)
    requires L.Working(server, read, r, Lifecycle.Owned) && L.Undisturbed(env) && r.deleting && !r.cleanup
    modifies server, status
    ensures L.Idle(server) && old(server.log) <= server.log
    ensures template.Found? && r.bound && server.state.cleanups != old(server.state).cleanups ==>
              Clean(template.components, old(status.components), between, w)
    ensures template.Found? && r.bound && UniqueNames(template.components)
            && Clean(template.components, old(status.components), between, w) ==>
              server.state.cleanups == old(server.state).cleanups + [Lifecycle.Cleanup(read, true, true, true)]
    ensures template.Missing? ==>
              server.state.cleanups == old(server.state).cleanups + [Lifecycle.Cleanup(read, false, false, false)]
    ensures template.Found? && !r.bound ==>
              server.state.cleanups == old(server.state).cleanups + [Lifecycle.Cleanup(read, true, false, false)]
    ensures template.Unreadable? ==> server.state.cleanups == old(server.state).cleanups
  {
    hide U.AllGone, D.AllSettled, UniqueNames;
    var undeployed, deprovisioned := L.Failing, L.Failing;
    between := status.components;
    if template.Found? && r.bound {
      undeployed := Undeploy(status, template.components, w);
      between := status.components;
      if undeployed.AllDone? { deprovisioned := Deprovision(status, template.components, w); }
    }
    L.CleanUpFirst(server, read, r, env, AnswerOf(template), undeployed, deprovisioned);
  }
}
