/**
 * How a run of either script ends, and the fail-fast discipline both follow:
 * every request is awaited, and the first rejected one ends the run with exit
 * code 1.
 */
module Runs {
  import opened Wrappers
  import opened Text
  import opened Gateway

  /** Why a run failed. */
  datatype Failure =
    | MissingEnv(name: string)                                  // thrown before the client exists
    | RequestFailed(error: ApiError)                            // a rejected request, forwarded as is
    | ProjectNotFound(service: string, projects: seq<string>)
    | InstanceNotFound(name: string)
    | UnexpectedState(status: string)

  datatype Exit = Succeeded | Failed(cause: Failure)

  /** A finished run: how it ended and every request it issued, in order. */
  datatype Run = Run(exit: Exit, log: seq<Request>)

  /** The process exit status: `process.exit(1)` on every failure, 0 otherwise. */
  function ExitCode(exit: Exit): (code: int)
    ensures code == 0 || code == 1
    ensures code == 0 <==> exit.Succeeded?
  {
    if exit.Succeeded? then 0 else 1
  }

  /** The text of the `Error` a script throws; rejected requests carry the client's own object instead. */
  function Describe(f: Failure): string
    requires !f.RequestFailed?
  {
    match f
    case MissingEnv(name) => "Missing required environment variable: " + name
    case ProjectNotFound(service, projects) =>
      "Project " + service + " not found in available projects: " + Join(projects, ", ")
    case InstanceNotFound(name) => "Instance " + name + " not found. Please create it first."
    case UnexpectedState(status) => "Instance is in unexpected state: " + status
  }

  /** Every message names what caused it; the project message names every available project. */
  lemma DescribeNamesCause(f: Failure)
    requires !f.RequestFailed?
    ensures f.MissingEnv? ==> Occurs(f.name, Describe(f))
    ensures f.ProjectNotFound? ==> Occurs(f.service, Describe(f))
    ensures f.ProjectNotFound? ==>
      forall i :: 0 <= i < |f.projects| ==> Occurs(f.projects[i], Describe(f))
    ensures f.InstanceNotFound? ==> Occurs(f.name, Describe(f))
    ensures f.UnexpectedState? ==> Occurs(f.status, Describe(f))
  {
    var m := Describe(f);
    match f
    case MissingEnv(name) =>
      assert name <= m[|m| - |name|..];
    case ProjectNotFound(service, projects) =>
      var head := "Project " + service + " not found in available projects: ";
      assert service <= m[8..];
      JoinKeepsEveryPart(projects, ", ");
      forall i | 0 <= i < |projects|
        ensures Occurs(projects[i], m)
      {
        var k :| 0 <= k <= |Join(projects, ", ")| && projects[i] <= Join(projects, ", ")[k..];
        assert m[|head| + k..] == Join(projects, ", ")[k..];
      }
    case InstanceNotFound(name) =>
      assert name <= m[9..];
    case UnexpectedState(status) =>
      assert status <= m[|m| - |status|..];
  }

  /**
   * The fail-fast discipline: every request but the last was answered; a
   * rejected last request is what ended the run; and a run that failed on a
   * request failed on its last one.
   */
  ghost predicate FailsFast(server: Server, run: Run)
  {
    && (forall i :: 0 <= i < |run.log| - 1 ==> ErrorFor(server, run.log[i]).None?)
    && (run.log != [] && ErrorFor(server, run.log[|run.log| - 1]).Some? ==>
          run.exit == Failed(RequestFailed(ErrorFor(server, run.log[|run.log| - 1]).value)))
    && (run.exit.Failed? && run.exit.cause.RequestFailed? ==>
          run.log != [] && ErrorFor(server, run.log[|run.log| - 1]) == Some(run.exit.cause.error))
  }
}
