/**
 * The start script: check the environment, probe the API, make sure the
 * service is one of the account's projects, find the instance by name and
 * start it if, and only if, it is STOPPED.
 */
module Start {
  import opened Wrappers
  import opened Gateway
  import opened Runs
  import opened Config
  import opened Lookup

  /** What to do with the instance once the lookup is done. */
  datatype Action = Refuse(cause: Failure) | AlreadyRunning | PowerOn(id: string)

  /** The status branch: only a STOPPED instance is started; only an ACTIVE one is left alone. */
  function Decide(found: Option<Instance>, target: string): (a: Action)
    ensures a.PowerOn? <==> found.Some? && found.value.status == "STOPPED"
    ensures a.PowerOn? ==> a.id == found.value.id
    ensures a.AlreadyRunning? <==> found.Some? && found.value.status == "ACTIVE"
    ensures found.None? ==> a == Refuse(InstanceNotFound(target))
    ensures found.Some? && found.value.status != "ACTIVE" && found.value.status != "STOPPED" ==>
      a == Refuse(UnexpectedState(found.value.status))
  {
    match found
    case None => Refuse(InstanceNotFound(target))
    case Some(instance) =>
      if instance.status == "ACTIVE" then AlreadyRunning
      else if instance.status == "STOPPED" then PowerOn(instance.id)
      else Refuse(UnexpectedState(instance.status))
  }

  /** The four reads the script issues, in order, before it can decide anything. */
  function Probes(service: string): seq<Request>
  {
    [AuthTime, Me, ListProjects, ListInstances(service)]
  }

  /** A whole run of the start script, as a value. */
  function StartRun(env: Env, server: Server): Run
  {
    var service := Get(env, SERVICE_VAR);
    var target := Get(env, START_INSTANCE_VAR);
    if MissingVar(env, START_REQUIRED).Some? then
      Run(Failed(MissingEnv(MissingVar(env, START_REQUIRED).value)), [])
    else if server.authTime.Rejected? then
      Run(Failed(RequestFailed(server.authTime.error)), [AuthTime])
    else if server.me.Rejected? then
      Run(Failed(RequestFailed(server.me.error)), [AuthTime, Me])
    else if server.projects.Rejected? then
      Run(Failed(RequestFailed(server.projects.error)), [AuthTime, Me, ListProjects])
    else if service !in server.projects.value then
      Run(Failed(ProjectNotFound(service, server.projects.value)), [AuthTime, Me, ListProjects])
    else if server.instances.Rejected? then
      Run(Failed(RequestFailed(server.instances.error)), Probes(service))
    else
      match Decide(Find(server.instances.value, target), target)
      case Refuse(cause) => Run(Failed(cause), Probes(service))
      case AlreadyRunning => Run(Succeeded, Probes(service))
      case PowerOn(id) =>
        var log := Probes(service) + [StartInstance(service, id)];
        if server.start.Rejected? then Run(Failed(RequestFailed(server.start.error)), log)
        else Run(Succeeded, log)
  }

  /** The start script's `main()`, issuing its requests one at a time. */
  method Execute(env: Env, server: Server) returns (exit: Exit, log: seq<Request>)
    ensures Run(exit, log) == StartRun(env, server)
  {
    log := [];
    var missing := Validate(env, START_REQUIRED);
    if missing.Some? {
      return Failed(MissingEnv(missing.value)), log;
    }
    var service := Get(env, SERVICE_VAR);
    var target := Get(env, START_INSTANCE_VAR);
    var time, me, projects, instances, started;
    log, time := Send(log, AuthTime, server.authTime);
    if time.Rejected? {
      return Failed(RequestFailed(time.error)), log;
    }
    log, me := Send(log, Me, server.me);
    if me.Rejected? {
      return Failed(RequestFailed(me.error)), log;
    }
    log, projects := Send(log, ListProjects, server.projects);
    if projects.Rejected? {
      return Failed(RequestFailed(projects.error)), log;
    }
    if service !in projects.value {
      return Failed(ProjectNotFound(service, projects.value)), log;
    }
    log, instances := Send(log, ListInstances(service), server.instances);
    if instances.Rejected? {
      return Failed(RequestFailed(instances.error)), log;
    }
    var instance := Find(instances.value, target);
    match Decide(instance, target)
    case Refuse(cause) =>
      exit := Failed(cause);
    case AlreadyRunning =>
      exit := Succeeded;
    case PowerOn(id) =>
      log, started := Send(log, StartInstance(service, id), server.start);
      exit := if started.Rejected? then Failed(RequestFailed(started.error)) else Succeeded;
  }

  // ---------------------------------------------------------------------------
  // Properties of a run

  /** An unset variable ends the run before the first request, naming the earliest one. */
  lemma MissingVariableStopsRun(env: Env, server: Server, i: nat)
    requires i < |START_REQUIRED| && !IsSet(env, START_REQUIRED[i])
    requires forall j :: 0 <= j < i ==> IsSet(env, START_REQUIRED[j])
    ensures StartRun(env, server) == Run(Failed(MissingEnv(START_REQUIRED[i])), [])
    ensures ExitCode(StartRun(env, server).exit) == 1
  {
  }

  /** Requests go out in a fixed order: the four reads, then at most a start of the service's instance. */
  lemma RequestOrder(env: Env, server: Server)
    ensures var run, service := StartRun(env, server), Get(env, SERVICE_VAR);
      && (|run.log| <= 4 ==> run.log <= Probes(service))
      && (|run.log| > 4 ==>
            |run.log| == 5 && run.log[..4] == Probes(service) &&
            run.log[4].StartInstance? && run.log[4].service == service)
  {
  }

  /** Each request goes out only once the previous one was answered; a rejection ends the run. */
  lemma FailsFastOnRejection(env: Env, server: Server)
    ensures FailsFast(server, StartRun(env, server))
  {
  }

  /** At most one state-changing request per run, and it is never a delete. */
  lemma AtMostOneStart(env: Env, server: Server)
    ensures StateChanges(StartRun(env, server).log) <= 1
    ensures forall i :: 0 <= i < |StartRun(env, server).log| && ChangesState(StartRun(env, server).log[i]) ==>
      StartRun(env, server).log[i].StartInstance?
  {
    var run, service := StartRun(env, server), Get(env, SERVICE_VAR);
    RequestOrder(env, server);
    if |run.log| == 5 {
      StateChangesAppend(Probes(service), [run.log[4]]);
      assert run.log == Probes(service) + [run.log[4]];
    }
  }

  /** A project list without the service ends the run there: the instances are never listed. */
  lemma ProjectGate(env: Env, server: Server)
    requires MissingVar(env, START_REQUIRED).None?
    requires server.authTime.Answered? && server.me.Answered? && server.projects.Answered?
    requires Get(env, SERVICE_VAR) !in server.projects.value
    ensures StartRun(env, server) ==
      Run(Failed(ProjectNotFound(Get(env, SERVICE_VAR), server.projects.value)), [AuthTime, Me, ListProjects])
    ensures forall i :: 0 <= i < |server.projects.value| ==>
      Text.Occurs(server.projects.value[i], Describe(StartRun(env, server).exit.cause))
  {
    DescribeNamesCause(StartRun(env, server).exit.cause);
  }

  /**
   * Once the instances are listed, the observed status of the first instance with
   * the target name decides: none is an error, ACTIVE is a no-op, STOPPED gets
   * exactly one start request with that instance's id and an empty body, and any
   * other status is an error.
   */
  lemma Transition(env: Env, server: Server)
    requires MissingVar(env, START_REQUIRED).None?
    requires server.authTime.Answered? && server.me.Answered? && server.projects.Answered?
    requires Get(env, SERVICE_VAR) in server.projects.value
    requires server.instances.Answered?
    ensures var run, service := StartRun(env, server), Get(env, SERVICE_VAR);
      var found := Find(server.instances.value, Get(env, START_INSTANCE_VAR));
      && (found.None? ==>
            run == Run(Failed(InstanceNotFound(Get(env, START_INSTANCE_VAR))), Probes(service)))
      && (found.Some? && found.value.status == "ACTIVE" ==>
            run == Run(Succeeded, Probes(service)))
      && (found.Some? && found.value.status == "STOPPED" ==>
            && run.log == Probes(service) + [StartInstance(service, found.value.id)]
            && VerbOf(run.log[4]) == POST
            && PathOf(run.log[4]) == "/cloud/project/" + service + "/instance/" + found.value.id + "/start"
            && BodyOf(run.log[4]) == EmptyObject
            && (run.exit.Succeeded? <==> server.start.Answered?))
      && (found.Some? && found.value.status != "ACTIVE" && found.value.status != "STOPPED" ==>
            run == Run(Failed(UnexpectedState(found.value.status)), Probes(service)))
  {
  }

  /** A run succeeds exactly when every stage passes and the instance ends up requested running. */
  lemma SucceedsExactlyWhen(env: Env, server: Server)
    ensures StartRun(env, server).exit.Succeeded? <==>
      && MissingVar(env, START_REQUIRED).None?
      && server.authTime.Answered? && server.me.Answered? && server.projects.Answered?
      && Get(env, SERVICE_VAR) in server.projects.value
      && server.instances.Answered?
      && var found := Find(server.instances.value, Get(env, START_INSTANCE_VAR));
         found.Some? &&
         (found.value.status == "ACTIVE" || (found.value.status == "STOPPED" && server.start.Answered?))
  {
  }

  /** Projects proj-a and proj-b, service proj-c: the run fails and its message lists "proj-a, proj-b". */
  lemma UnknownProjectScenario(env: Env, server: Server)
    requires MissingVar(env, START_REQUIRED).None? && Get(env, SERVICE_VAR) == "proj-c"
    requires server.authTime.Answered? && server.me.Answered?
    requires server.projects == Answered(["proj-a", "proj-b"])
    ensures StartRun(env, server).exit == Failed(ProjectNotFound("proj-c", ["proj-a", "proj-b"]))
    ensures Text.Join(StartRun(env, server).exit.cause.projects, ", ") == "proj-a, proj-b"
  {
  }

  /** Projects proj-a and proj-b, service proj-b: the gate passes and the instances of proj-b are listed. */
  lemma KnownProjectScenario(env: Env, server: Server)
    requires MissingVar(env, START_REQUIRED).None? && Get(env, SERVICE_VAR) == "proj-b"
    requires server.authTime.Answered? && server.me.Answered?
    requires server.projects == Answered(["proj-a", "proj-b"])
    ensures ListInstances("proj-b") in StartRun(env, server).log
    ensures !(StartRun(env, server).exit.Failed? && StartRun(env, server).exit.cause.ProjectNotFound?)
  {
  }
}
