# ovh-vm-start-stop, modelled in Dafny

The repository holds two one-shot Node scripts that control one named OVHcloud
Public Cloud instance:

- `src/start.ts` starts the instance if it is `STOPPED`.
- `src/stop.ts` deletes the instance if it exists.

Each script's `main()` runs these steps in order, and any failure ends the
process with exit code 1:

1. It checks a fixed, ordered list of environment variables.
2. It probes the API (`GET /auth/time`, `GET /me`).
3. The start script only: it checks that the service is one of the account's projects.
4. It lists the project's instances and picks the first one whose `name` equals the target.
5. It issues at most one state-changing request.

The model separates the decisions from the network:

- **Config** (`config.dfy`): the environment check. `Validate` is the
  imperative `for` loop. `FirstUnset` and `MissingVar` specify it.
  `process.env[x]` counts as unset when it is undefined or `""`, which is
  JavaScript's falsy test on a string.
- **Gateway** (`gateway.dfy`) abstracts the external OVH client:
  - the requests the scripts can issue, with their literal verb, path and body;
  - a `Server` value holding the client's reply to each endpoint (a result or
    an error object);
  - `Send`, one awaited request, which appends to the run's request log.
- **Lookup** (`lookup.dfy`): `instances.find` by exact name.
- **Runs** (`runs.dfy`) holds what both scripts share:
  - why a run fails, the exit code and the error messages;
  - `FailsFast`, the fail-fast discipline both scripts follow.
- **Start** and **Stop** (`start.dfy`, `stop.dfy`) each hold:
  - the status decision, as a pure function;
  - the whole run as a value (`StartRun`, `StopRun`);
  - `Execute`, the imperative sequence of requests, proved equal to that value;
  - lemmas for the properties the scripts promise.

## Model

| member | source | states |
|---|---|---|
| Config.START_REQUIRED | src/start.ts:6-13 | the six variables the start script requires, in the order it checks them |
| Config.STOP_REQUIRED | src/stop.ts:6-13 | the six variables the stop script requires, in order; the last is `INSTANCE_NAME`, not `OVH_INSTANCE_NAME` |
| Config.Get | src/start.ts:16 | `process.env[name]`: the variable's value, with an undefined variable read as `""` |
| Config.IsSet | src/stop.ts:16 | the negation of `!process.env[name]`: the variable is defined and not the empty string |
| Config.FirstUnset | src/start.ts:15-19 | the position returned is the earliest unset variable: every earlier name is set, the one there is not, and it is the list length when all are set |
| Config.MissingVar | src/start.ts:15-19 | the check passes exactly when every required variable is set; otherwise it names a required variable that is unset |
| Config.FirstUnsetIsNamed | src/start.ts:15-19 | whatever else is unset, the variable named is the first unset one in list order |
| Config.Validate | src/stop.ts:15-19 | the loop stops at the first unset variable and returns exactly what `MissingVar` specifies |
| Gateway.VerbOf | src/start.ts:108 | the HTTP verb of each request: `POST` for the start, `DELETE` for the delete (src/stop.ts:84), `GET` for the four reads |
| Gateway.PathOf | src/start.ts:81 | the path of each request, as in the scripts' template literals: `/auth/time`, `/me`, `/cloud/project`, `/cloud/project/{service}/instance`, `.../instance/{id}/start` (src/start.ts:108), `.../instance/{id}` (src/stop.ts:84) |
| Gateway.BodyOf | src/start.ts:108 | the data argument: `{}` for the start request and none for every other request |
| Gateway.ErrorFor | src/start.ts:33-41 | the error, if any, that the client's callback receives for each request, taken from that endpoint's reply |
| Gateway.Send | src/start.ts:32-42 | one awaited request: it is appended to the log, and the client's answer to it, a result or an error, is handed back |
| Lookup.FirstNamed | src/start.ts:89 | the index of the first instance with exactly the target name, or the list length when none matches |
| Lookup.Find | src/start.ts:89 | nothing is found exactly when no instance has the target name; what is found has that name and no earlier instance does |
| Lookup.FindIgnoresLaterEntries | src/start.ts:89 | once a match exists, appending more instances, duplicates included, does not change the selection |
| Lookup.FindSkipsOtherNames | src/stop.ts:75 | instances with other names in front of the list do not change the selection |
| Text.Join | src/start.ts:75 | `projects.join(', ')`: the empty string for no projects, the project itself for one, and otherwise the projects in order with `", "` between consecutive ones |
| Text.JoinKeepsEveryPart | src/start.ts:75 | every project appears in `projects.join(', ')` |
| Runs.ExitCode | src/start.ts:130 | the exit status is 0 exactly for a successful run and 1 for every failure |
| Runs.Describe | src/start.ts:17-119 | the text of each `Error` the script throws: the missing variable, the unknown project with the joined project list, the missing instance, and the unexpected status |
| Runs.DescribeNamesCause | src/start.ts:17-119 | each thrown message names its cause; the unknown-project message names the service and every available project |
| Start.Decide | src/start.ts:100-120 | start is chosen exactly for a `STOPPED` instance and uses its id; no-op exactly for `ACTIVE`; absence gives instance-not-found; any other status gives unexpected-state carrying that status |
| Start.StartRun | src/start.ts:4-132 | a whole start run as a value: the environment check, the four reads each ending the run on an error, the project gate, the lookup and the status branch with its single start request |
| Start.Execute | src/start.ts:4-132 | the sequence of awaited requests yields exactly the run `StartRun` describes: the same exit and the same request log |
| Start.MissingVariableStopsRun | src/start.ts:6-19 | an unset variable fails the run, naming the first unset one in list order, with no request issued and exit code 1 |
| Start.RequestOrder | src/start.ts:32-87 | the log is a prefix of `GET /auth/time`, `GET /me`, `GET /cloud/project`, `GET /cloud/project/{service}/instance`, optionally followed by one start for that service |
| Start.FailsFastOnRejection | src/start.ts:29-131 | every request but the last was answered; a rejected request ends the run, failing with that very error |
| Start.AtMostOneStart | src/start.ts:100-120 | at most one state-changing request per run, and that request is a start |
| Start.ProjectGate | src/start.ts:74-76 | a service missing from the project list fails the run after three reads, so the instances are never listed, and the message lists every project |
| Start.Transition | src/start.ts:89-120 | after listing: no match fails with no start; `ACTIVE` succeeds with no further request; `STOPPED` issues exactly one `POST .../instance/{id}/start` with body `{}` and that instance's id; any other status fails as unexpected with no start |
| Start.SucceedsExactlyWhen | src/start.ts:29-131 | a run succeeds if and only if: every variable is set; every read is answered; the service is listed; an instance matches; and it is `ACTIVE`, or `STOPPED` with the start accepted |
| Start.UnknownProjectScenario | src/start.ts:74-76 | with projects `proj-a`, `proj-b` and service `proj-c`, the run fails and lists `proj-a, proj-b` |
| Start.KnownProjectScenario | src/start.ts:74-87 | with projects `proj-a`, `proj-b` and service `proj-b`, the gate passes and the instances of `proj-b` are listed |
| Stop.Decide | src/stop.ts:75-84 | delete is chosen exactly when an instance was found, and it uses that instance's id |
| Stop.StopRun | src/stop.ts:4-105 | a whole stop run as a value: the environment check, the three reads each ending the run on an error, the lookup, and the single delete of a found instance |
| Stop.Execute | src/stop.ts:4-105 | the sequence of awaited requests yields exactly the run `StopRun` describes: the same exit and the same request log |
| Stop.MissingVariableStopsRun | src/stop.ts:6-19 | an unset variable fails the run, naming the first unset one in list order, with no request issued and exit code 1 |
| Stop.RequestOrder | src/stop.ts:32-72 | the log is a prefix of `GET /auth/time`, `GET /me`, `GET /cloud/project/{service}/instance`, optionally followed by one delete for that service; the projects are never listed |
| Stop.FailsFastOnRejection | src/stop.ts:29-104 | every request but the last was answered; a rejected request ends the run, failing with that very error |
| Stop.AtMostOneDelete | src/stop.ts:63-93 | at most one state-changing request per run, and that request is a delete, never a start |
| Stop.Transition | src/stop.ts:74-93 | after listing: no match succeeds with no delete; a match gets exactly one `DELETE .../instance/{id}` with the first match's id, whatever its status |
| Stop.SucceedsExactlyWhen | src/stop.ts:29-104 | a run succeeds if and only if: every variable is set; every read is answered; and any matching instance's delete was accepted |
| Stop.InstanceVariableIsUnprefixed | src/stop.ts:6-13 | setting `OVH_INSTANCE_NAME` does not satisfy the stop script: without `INSTANCE_NAME` it fails naming `INSTANCE_NAME` |

## Left out

- The OVH client itself is not modelled: its construction from the credentials, `dotenv` loading, request signing and HTTP transport. A request is an abstract call whose reply is given by the `Server` value.
- The `Server` value holds one reply per endpoint. Each script calls each endpoint at most once per run, so a reply that depends on the request path adds nothing.
- The result of `GET /auth/time` is used only for logging and that of `GET /me` is not used, so only whether each request succeeded is modelled.
- A reply of the wrong shape is not modelled: the project list is taken to be a list of strings and the instance list a list of `{id, name, status}` records, as the scripts assume without checking.
- Console output is not modelled. Neither is the dump of the error object's properties in the `catch` block. Only the outcome (success, or failure with its cause) and the exit code are kept.
- `main().catch` is not modelled separately. A missing variable is thrown before the `try`, so it reaches that handler, which also exits with code 1. The model gives both paths the same failed outcome.
- Creating an instance, shelving it, and resolving regions, flavours, images and SSH keys do not appear in either script, so they are not modelled.
- Polling for completion and concurrent runs are not modelled: neither script polls or coordinates runs.
- The client's error object is forwarded unchanged. The model carries it as the single `RequestFailed` cause and never inspects its fields.
- The environment loop throws at the first unset name. The model therefore names only that one variable, and says nothing about the unset names that come after it.
- The full unknown-project message text is stated by `Runs.Describe`. `Start.UnknownProjectScenario` proves the failure and the joined listing, not the equality of the whole message string.
