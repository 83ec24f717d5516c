/**
 * The provider's REST API as the two scripts use it. The authenticated client
 * itself is external: a run is modelled by the requests it issues (its log) and
 * by the reply the client hands back for each of them (a `Server`).
 */
module Gateway {
  import opened Wrappers

  /** One entry of `GET /cloud/project/{service}/instance`. */
  datatype Instance = Instance(id: string, name: string, status: string)

  /** The client's error object; the scripts forward it without looking inside. */
  datatype ApiError = ApiError(fields: map<string, string>)

  /** What the client's callback receives: a result, or an error. */
  datatype Reply<+T> = Answered(value: T) | Rejected(error: ApiError)

  function Rejection<T>(reply: Reply<T>): (e: Option<ApiError>)
    ensures e.None? <==> reply.Answered?
    ensures reply.Rejected? ==> e == Some(reply.error)
  {
    if reply.Rejected? then Some(reply.error) else None
  }

  datatype Verb = GET | POST | DELETE

  /** The request body: none, or the empty object `{}`. */
  datatype Body = NoBody | EmptyObject

  /** Every request either script can issue. */
  datatype Request =
    | AuthTime
    | Me
    | ListProjects
    | ListInstances(service: string)
    | StartInstance(service: string, id: string)
    | DeleteInstance(service: string, id: string)

  function VerbOf(r: Request): Verb
  {
    match r
    case StartInstance(_, _) => POST
    case DeleteInstance(_, _) => DELETE
    case _ => GET
  }

  function PathOf(r: Request): string
  {
    match r
    case AuthTime => "/auth/time"
    case Me => "/me"
    case ListProjects => "/cloud/project"
    case ListInstances(service) => "/cloud/project/" + service + "/instance"
    case StartInstance(service, id) => "/cloud/project/" + service + "/instance/" + id + "/start"
    case DeleteInstance(service, id) => "/cloud/project/" + service + "/instance/" + id
  }

  function BodyOf(r: Request): Body
  {
    if r.StartInstance? then EmptyObject else NoBody
  }

  /** Only GETs are reads; a POST or a DELETE asks the provider to change something. */
  predicate ChangesState(r: Request)
  {
    VerbOf(r) != GET
  }

  /** How many state-changing requests a log holds. */
  function StateChanges(log: seq<Request>): (n: nat)
    ensures n <= |log|
    ensures n == 0 <==> forall i :: 0 <= i < |log| ==> !ChangesState(log[i])
  {
    if log == [] then 0
    else (if ChangesState(log[0]) then 1 else 0) + StateChanges(log[1..])
  }

  lemma {:induction false} StateChangesAppend(a: seq<Request>, b: seq<Request>)
    ensures StateChanges(a + b) == StateChanges(a) + StateChanges(b)
  {
    if a != [] {
      assert (a + b)[0] == a[0] && (a + b)[1..] == a[1..] + b;
      StateChangesAppend(a[1..], b);
    } else {
      assert a + b == b;
    }
  }

  /**
   * The replies the client gives during one run, one per endpoint. Each run
   * calls each endpoint at most once, so one reply per endpoint is enough.
   */
  datatype Server = Server(
    authTime: Reply<int>,
    me: Reply<()>,
    projects: Reply<seq<string>>,
    instances: Reply<seq<Instance>>,
    start: Reply<()>,
    delete: Reply<()>)

  /** The error, if any, with which the client answers request `r`. */
  function ErrorFor(server: Server, r: Request): Option<ApiError>
  {
    match r
    case AuthTime => Rejection(server.authTime)
    case Me => Rejection(server.me)
    case ListProjects => Rejection(server.projects)
    case ListInstances(_) => Rejection(server.instances)
    case StartInstance(_, _) => Rejection(server.start)
    case DeleteInstance(_, _) => Rejection(server.delete)
  }

  /**
   * One awaited `client.request(...)`: the request joins the log and the
   * client's answer to it, a result or an error, is handed back to the caller.
   */
  method Send<T>(log: seq<Request>, r: Request, answer: Reply<T>) returns (log': seq<Request>, reply: Reply<T>)
    ensures log' == log + [r]
    ensures reply == answer
  {
    log' := log + [r];
    reply := answer;
  }
}
