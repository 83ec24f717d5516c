/**
 * The stop script: check the environment, probe the API, find the instance by
 * name and delete it whatever its status; a missing instance is not an error.
 */
module Stop {
  import opened Wrappers
  import opened Gateway
  import opened Runs
  import opened Config
  import opened Lookup

  datatype Action = NothingToDelete | Remove(id: string)

  /** Absent: nothing to do. Present: delete it, with no look at its status. */
  function Decide(found: Option<Instance>): (a: Action)
    ensures a.NothingToDelete? <==> found.None?
    ensures a.Remove? ==> a.id == found.value.id
  {
    match found
    case None => NothingToDelete
    case Some(instance) => Remove(instance.id)
  }

  /** The reads the script issues before it can decide; there is no project listing. */
  function Probes(service: string): seq<Request>
  {
    [AuthTime, Me, ListInstances(service)]
  }

  /** A whole run of the stop script, as a value. */
  function StopRun(env: Env, server: Server): Run
  {
    var service := Get(env, SERVICE_VAR);
    var target := Get(env, STOP_INSTANCE_VAR);
    if MissingVar(env, STOP_REQUIRED).Some? then
      Run(Failed(MissingEnv(MissingVar(env, STOP_REQUIRED).value)), [])
    else if server.authTime.Rejected? then
      Run(Failed(RequestFailed(server.authTime.error)), [AuthTime])
    else if server.me.Rejected? then
      Run(Failed(RequestFailed(server.me.error)), [AuthTime, Me])
    else if server.instances.Rejected? then
      Run(Failed(RequestFailed(server.instances.error)), Probes(service))
    else
      match Decide(Find(server.instances.value, target))
      case NothingToDelete => Run(Succeeded, Probes(service))
      case Remove(id) =>
        var log := Probes(service) + [DeleteInstance(service, id)];
        if server.delete.Rejected? then Run(Failed(RequestFailed(server.delete.error)), log)
        else Run(Succeeded, log)
  }

  /** The stop script's `main()`, issuing its requests one at a time. */
  method Execute(env: Env, server: Server) returns (exit: Exit, log: seq<Request>)
    ensures Run(exit, log) == StopRun(env, server)
  {
    log := [];
    var missing := Validate(env, STOP_REQUIRED);
    if missing.Some? {
      return Failed(MissingEnv(missing.value)), log;
    }
    var service := Get(env, SERVICE_VAR);
    var target := Get(env, STOP_INSTANCE_VAR);
    var time, me, instances, deleted;
    log, time := Send(log, AuthTime, server.authTime);
    if time.Rejected? {
      return Failed(RequestFailed(time.error)), log;
    }
    log, me := Send(log, Me, server.me);
    if me.Rejected? {
      return Failed(RequestFailed(me.error)), log;
    }
    log, instances := Send(log, ListInstances(service), server.instances);
    if instances.Rejected? {
      return Failed(RequestFailed(instances.error)), log;
    }
    var instance := Find(instances.value, target);
    match Decide(instance)
    case NothingToDelete =>
      exit := Succeeded;
    case Remove(id) =>
      log, deleted := Send(log, DeleteInstance(service, id), server.delete);
      exit := if deleted.Rejected? then Failed(RequestFailed(deleted.error)) else Succeeded;
  }

  // ---------------------------------------------------------------------------
  // Properties of a run

  /** An unset variable ends the run before the first request, naming the earliest one. */
  lemma MissingVariableStopsRun(env: Env, server: Server, i: nat)
    requires i < |STOP_REQUIRED| && !IsSet(env, STOP_REQUIRED[i])
    requires forall j :: 0 <= j < i ==> IsSet(env, STOP_REQUIRED[j])
    ensures StopRun(env, server) == Run(Failed(MissingEnv(STOP_REQUIRED[i])), [])
    ensures ExitCode(StopRun(env, server).exit) == 1
  {
  }

  /** Requests go out in a fixed order: three reads, then at most a delete; the projects are never listed. */
  lemma RequestOrder(env: Env, server: Server)
    ensures var run, service := StopRun(env, server), Get(env, SERVICE_VAR);
      && (|run.log| <= 3 ==> run.log <= Probes(service))
      && (|run.log| > 3 ==>
            |run.log| == 4 && run.log[..3] == Probes(service) &&
            run.log[3].DeleteInstance? && run.log[3].service == service)
      && ListProjects !in run.log
  {
  }

  /** Each request goes out only once the previous one was answered; a rejection ends the run. */
  lemma FailsFastOnRejection(env: Env, server: Server)
    ensures FailsFast(server, StopRun(env, server))
  {
  }

  /** At most one state-changing request per run, and it is always a delete, never a start. */
  lemma AtMostOneDelete(env: Env, server: Server)
    ensures StateChanges(StopRun(env, server).log) <= 1
    ensures forall i :: 0 <= i < |StopRun(env, server).log| && ChangesState(StopRun(env, server).log[i]) ==>
      StopRun(env, server).log[i].DeleteInstance?
  {
    var run, service := StopRun(env, server), Get(env, SERVICE_VAR);
    RequestOrder(env, server);
    if |run.log| == 4 {
      StateChangesAppend(Probes(service), [run.log[3]]);
      assert run.log == Probes(service) + [run.log[3]];
    }
  }

  /**
   * Once the instances are listed: no instance with the target name means
   * success with no delete; otherwise exactly one delete of the first such
   * instance, whatever its status.
   */
  lemma Transition(env: Env, server: Server)
    requires MissingVar(env, STOP_REQUIRED).None?
    requires server.authTime.Answered? && server.me.Answered? && server.instances.Answered?
    ensures var run, service := StopRun(env, server), Get(env, SERVICE_VAR);
      var found := Find(server.instances.value, Get(env, STOP_INSTANCE_VAR));
      && (found.None? ==> run == Run(Succeeded, Probes(service)))
      && (found.Some? ==>
            && run.log == Probes(service) + [DeleteInstance(service, found.value.id)]
            && VerbOf(run.log[3]) == DELETE
            && PathOf(run.log[3]) == "/cloud/project/" + service + "/instance/" + found.value.id
            && BodyOf(run.log[3]) == NoBody
            && (run.exit.Succeeded? <==> server.delete.Answered?))
  {
  }

  /** A run succeeds exactly when every stage passes and any matching instance was deleted. */
  lemma SucceedsExactlyWhen(env: Env, server: Server)
    ensures StopRun(env, server).exit.Succeeded? <==>
      && MissingVar(env, STOP_REQUIRED).None?
      && server.authTime.Answered? && server.me.Answered? && server.instances.Answered?
      && (Find(server.instances.value, Get(env, STOP_INSTANCE_VAR)).Some? ==> server.delete.Answered?)
  {
  }

  /** The start script's instance variable does not satisfy the stop script, which reads `INSTANCE_NAME`. */
  lemma InstanceVariableIsUnprefixed(env: Env, server: Server)
    requires forall j :: 0 <= j < |STOP_REQUIRED| - 1 ==> IsSet(env, STOP_REQUIRED[j])
    requires IsSet(env, START_INSTANCE_VAR) && !IsSet(env, STOP_INSTANCE_VAR)
    ensures StopRun(env, server) == Run(Failed(MissingEnv(STOP_INSTANCE_VAR)), [])
  {
    MissingVariableStopsRun(env, server, |STOP_REQUIRED| - 1);
  }
}
