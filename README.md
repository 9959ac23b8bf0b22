# Redis session sandboxes: a Dafny model of the session lifecycle

The backend server gives each caller an isolated Redis sandbox. `POST /start-session`
starts a fresh `redis:latest` container whose port 6379 is published on a host port
the engine picks. It reads that port back, connects a Redis client to it, loads the
scenario configuration and records the session in a module-level map.
`POST /execute-command/:sessionId` looks the session up, restarts a stopped
container, reconnects a closed client, checks the lowercased command name against
the client's commands, and calls the command with the supplied arguments.
`POST /end-session/:sessionId` quits the client, stops and removes the container,
and then deletes the entry.

A second path, `executeRedisCommand` in `backend/demo.js`, runs `redis-cli` inside
the container instead. It collects the text of the output stream and resolves with
that text trimmed once the stream ends.

The model has four modules:

- `Outcomes` (outcomes.dfy): `Outcome` and `Result`. Every awaited external call is
  an input that either succeeds or fails with an error message.
- `JsText` (js_text.dfy): `String.prototype.trim` with the ECMAScript whitespace set,
  and `toLowerCase` on ASCII letters.
- `Sessions` (sessions.dfy): the session table and the three handlers. Each handler
  appears twice:
  - as a step function (`StartStep`, `ExecuteStep`, `EndStep`) that gives the new
    table, the HTTP status and body, and the list of external calls made, in order;
  - as a method of the class `Registry`, which updates its `sessions` map field in
    place with the handler's early returns. Each method is proved to take exactly
    that step and to keep the table well formed.

  The lemmas state the handlers' guarantees in terms of the step functions.
- `ExecBridge` (exec_bridge.dfy): the `redis-cli` command line, and a loop over the
  stream's events (`Data`, `End`, `Error`) proved equal to a reference fold. Lemmas
  cover the trimmed result, rejection on error, and settling only once.

The container is reduced to its name and host port, and the client to its URL,
connect timeout and open flag. Whether a container runs is the engine's state: the
execute handler learns it from an inspection, and the model takes the inspection's
answer as an input. `WellFormed` ties every entry to its id: the container is named
`redis-session-<id>`, and the client points at the container's host port with the
10000 ms connect timeout. So no two entries share a container
(`DistinctContainers`). A removed container never stays in the table, because
`sessions.delete` follows the successful remove directly. So the model has no
removed flag: absence from the table stands for it.

How the handlers behave, read off the code:

- A start that fails after the container was created leaves that container behind.
  No cleanup is attempted (`StartFailureLeavesContainer`).
- The start handler stores the entry before the reply reads the scenario name. A
  configuration file holding no document (empty, or only `null`) loads as nothing.
  Reading its `name` throws, so the caller gets 500 while the entry stays in the
  table (see Findings).
- A failing teardown call answers 500 and keeps the entry. The entry is not deleted
  anyway (`EndFailureKeepsEntry`).
- A failure during execute is not retried after a reconnect. It answers 400 at once,
  for each of the calls that can throw (`ExecuteInspectFails`, `ExecuteStartFails`,
  `ExecuteConnectFails`, `ExecuteArgsMissing`, `ExecuteOutcome`).
- A command that closes the client (`quit`, `disconnect`) is accepted like any
  other. The next execute on that session reconnects (`ExecuteReconnectsAfterClose`).
- The exec bridge trims both ends of the output, not only trailing whitespace.
- The start handler does not check the new id against the table. `sessions.set`
  would overwrite an entry, and `StartStep` does the same. `StartGrowsByOne` states
  what happens when the id is fresh.

## Model

| member | source | states |
|---|---|---|
| Sessions.DistinctContainers | backend/app.js:22-27 | in a well-formed table two different session ids never share a container name |
| Sessions.StartCommitsOnlyOnSuccess | backend/app.js:20-72 | start answers 200 exactly when container create, start, port inspection, client connect and config load all succeed and a document was loaded; otherwise 500; the table is unchanged unless every call succeeded, in which case it gains the id |
| Sessions.StartEmptyConfigKeepsEntry | backend/app.js:55-71 | when every call succeeds but the configuration file holds no document, the answer is 500 while the entry, with its open client, stays in the table and no remove call is made |
| Sessions.CheckedStartCommitsOnlyOnSuccess | backend/app.js:20-72 | with the configuration checked before the entry is stored, the table changes exactly when the answer is 200, and then by exactly the new entry |
| Sessions.StartRecordsSession | backend/app.js:46-68 | a start whose calls all succeed stores the entry under its id with step 0, the loaded config, a container named after the id on the inspected port and an open client on that port with the 10000 ms timeout; other entries untouched; with a loaded document the reply carries the id and the scenario name |
| Sessions.StartGrowsByOne | backend/app.js:57-62 | with a fresh id the table gains exactly one entry |
| Sessions.StartRequestsEphemeralPort | backend/app.js:25-36 | the first call creates the `redis-session-<id>` container from `redis:latest` with 6379/tcp bound to host port "0" |
| Sessions.StartFailureLeavesContainer | backend/app.js:69-72 | a start failing after the container was created makes no stop or remove call |
| Sessions.StartKeepsValid | backend/app.js:57-62 | starting keeps every entry well formed |
| Sessions.ExecuteRequiresCommand | backend/app.js:78-80 | a missing or empty command answers 400 "Command is required" before lookup: table unchanged, no external call |
| Sessions.ExecuteUnknownSession | backend/app.js:82-85 | an id without an entry answers 404, table unchanged, no external call |
| Sessions.ExecuteInspectFails | backend/app.js:91-120 | a failing inspection answers 400 with its error message, the command and the args; table unchanged; the inspection is the only call |
| Sessions.ExecuteStartFails | backend/app.js:92-120 | a container reported stopped whose start fails answers 400 with the start's error message; table unchanged; no client call |
| Sessions.ExecuteConnectFails | backend/app.js:99-120 | a closed client whose reconnect fails answers 400 with the connect's error message; table unchanged; the connect is the last call and nothing is sent |
| Sessions.ExecuteArgsMissing | backend/app.js:109-120 | a request without an argument list answers 400 with the runtime's spread error once the checks pass; the client stays open and nothing is sent |
| Sessions.ExecuteTableShape | backend/app.js:87-111 | execute leaves the table as it was or changes only the named entry's client: opened by the reconnect, or as the command left it |
| Sessions.ExecuteKeepsEntries | backend/app.js:87-121 | execute never adds or deletes an entry or touches another one, and changes nothing of the named entry but whether its client is open |
| Sessions.ExecuteDispatchesOnlyWhenReady | backend/app.js:91-109 | a command is sent only as the last call, under its lowercased name when that name is offered, with the arguments as supplied, after the container was reported running or was started and the client was open or was connected |
| Sessions.ExecuteHeals | backend/app.js:91-109 | when the health-check calls succeed, a start call is made exactly when the container was reported stopped and a connect call exactly when the client was closed; the client is then open unless the sent command closed it |
| Sessions.ExecuteReconnectsAfterClose | backend/app.js:99-109 | after a sent command that closed the client, the next execute on that session reconnects it |
| Sessions.ExecuteRejectsUnknownCommand | backend/app.js:104-106 | a lowercased name the client does not offer never reaches the store; once the checks pass it answers 400 "Invalid Redis command: <command>" |
| Sessions.ExecuteIgnoresCase | backend/app.js:104-109 | command names differing only in letter case give the same table, status and calls |
| Sessions.ExecuteOutcome | backend/app.js:109-121 | execute answers 200, 400 or 404; 404 exactly for an unknown id; 200 exactly when the command was sent and the store accepted it, carrying the reply; a store error answers 400 with the store's message; the entry stays |
| Sessions.ExecuteKeepsValid | backend/app.js:87-111 | execute keeps every entry well formed |
| Sessions.EndUnknownSession | backend/app.js:126-130 | ending an id without an entry answers 404, table unchanged, no external call |
| Sessions.EndRemovesOnlyNamed | backend/app.js:132-137 | a successful end calls quit, stop, remove in that order and deletes exactly the named entry |
| Sessions.EndFailureKeepsEntry | backend/app.js:132-141 | a failing teardown call answers 500 and keeps the entry, its client closed once quit succeeded and all else unchanged; the calls stop at the one that failed |
| Sessions.EndTwice | backend/app.js:124-142 | after a successful end, a second end answers 404 with no teardown call, and an execute on that id answers 404 |
| Sessions.StartThenEnd | backend/app.js:20-142 | a start of a fresh id whose calls all succeed, then a successful end, leaves the table as it was, whether the start answered 200 or 500 |
| Sessions.EndKeepsValid | backend/app.js:132-136 | ending keeps every entry well formed |
| Sessions.Registry.StartSession | backend/app.js:20-73 | the handler updates the sessions map field as `StartStep` says and keeps it well formed |
| Sessions.Registry.ExecuteCommand | backend/app.js:74-122 | the handler updates the sessions map field as `ExecuteStep` says and keeps it well formed |
| Sessions.Registry.CheckAndInvoke | backend/app.js:87-121 | the handler's try block updates the sessions map field as `ExecuteInSession` says and keeps it well formed |
| Sessions.Registry.Invoke | backend/app.js:103-111 | the name check and the command call update the sessions map field as `Dispatch` says and keep it well formed |
| Sessions.Registry.EndSession | backend/app.js:124-142 | the handler updates the sessions map field as `EndStep` says and keeps it well formed |
| JsText.Trim | backend/demo.js:30 | the trimmed output has no leading or trailing whitespace |
| JsText.TrimIsSlice | backend/demo.js:30 | the trimmed output is a slice of the text, and only whitespace lies around it |
| JsText.TrimUnique | backend/demo.js:30 | any slice with no outer whitespace and only whitespace around it is the trimmed output |
| JsText.TrimIdempotent | backend/demo.js:30 | trimming twice equals trimming once |
| JsText.LowerEqualIff | backend/app.js:104 | two names lowercase to the same name exactly when they differ only in ASCII letter case |
| ExecBridge.CommandLine | backend/demo.js:18 | the exec command line is `redis-cli`, then the command, then each argument in the order given |
| ExecBridge.CommandLineInjective | backend/demo.js:18 | the command line determines the command and every argument: nothing dropped or reordered |
| ExecBridge.ChunksAppend | backend/demo.js:26-28 | the concatenated chunks of two stretches of events are the chunks of the first followed by those of the second |
| ExecBridge.PendingMeansAllData | backend/demo.js:24-33 | a promise still pending has received only data chunks |
| ExecBridge.SettleSnoc | backend/demo.js:26-32 | one more event leaves a settled promise as it was; on a pending one a chunk keeps it pending, `end` resolves with the trimmed chunks so far, `error` rejects |
| ExecBridge.Collect | backend/demo.js:24-33 | the listeners' loop settles as the reference `Settle` does, and the accumulated output is every data chunk in arrival order |
| ExecBridge.ResolvesOnEnd | backend/demo.js:29-31 | data chunks followed by `end` resolve with the trimmed concatenation of those chunks, which has no outer whitespace, whatever follows |
| ExecBridge.RejectsOnError | backend/demo.js:32 | data chunks followed by `error` reject with that error, whatever follows |
| ExecBridge.PendingWithoutTerminal | backend/demo.js:24-33 | a stream with neither `end` nor `error` leaves the promise pending |
| ExecBridge.SettledStays | backend/demo.js:24-33 | once settled, later events do not change the outcome |
| ExecBridge.ExecuteRedisCommand | backend/demo.js:16-34 | the command line handed to the engine is `CommandLine(command, args)`; a failing exec create or start rejects with its error; otherwise the result is that of the stream |

## Findings

| source | as written | input that shows it | evidently intended | confidence | as-written member | corrected member |
|---|---|---|---|---|---|---|
| backend/app.js:55-71 | the entry is stored at line 57, before line 67 reads `sessionConfig.name`; when the configuration file holds no document that read throws, and the catch answers 500 | every call succeeds and `redis-session.yaml` is empty, so `yaml.load` returns undefined | a session is recorded exactly when the caller is told its id; a start that answers 500 leaves the table as it was | medium, not executed | Sessions.StartEmptyConfigKeepsEntry | Sessions.CheckedStartCommitsOnlyOnSuccess |

`StartStep` and `Registry.StartSession` follow the code as written. `CheckedStartStep`
is the start with the configuration checked before the entry is stored.
`CheckedStartCommitsOnlyOnSuccess` states its intended property.

## Left out

- Docker engine calls (`createContainer`, `start`, `inspect`, `stop`, `remove`, `exec`): each is a success/failure input. The host port is an opaque string chosen by the engine.
- Whether a container runs: the engine keeps that state, and the execute handler's inspection reports it as an input. The model does not relate the report to earlier start or stop calls. This covers a container stopped out of band, by a `shutdown` command, or by an end whose remove failed, but the model does not derive any of those.
- The Redis client library (`createClient`, `connect`, `quit`, the command methods): the command surface is the given set `Registry.commands`. A command's reply or error is an input, and so is whether the client is still open once the command has settled. The store's own semantics (SET then GET, LPUSH order) are not modelled.
- A client `connect` that fails is taken to leave the client closed, and a `quit` that fails to leave it as it was. The library's internal reconnect behaviour is not modelled.
- A request body whose `command` is a truthy non-string: `command` is either absent or a string.
- A request body whose `args` is present but not an array: `args` is either absent or a list of strings. The source spreads a string into its single characters (`...args` at backend/app.js:109), and throws for a non-iterable object. Arguments that are numbers or nested values are not modelled either.
- JsText.Lower: lowercases ASCII letters only, not the full Unicode mapping of `toLowerCase`. Non-ASCII input that `toLowerCase` maps into ASCII differs. For example, a name beginning with the Kelvin sign U+212A, followed by `EYS`, lowercases to `keys` at backend/app.js:104 and is sent to the store, while the model answers 400 "Invalid Redis command".
- `loadSessionConfig` (file read and YAML parse): the outcome is an input. A loaded document is either nothing (`None`) or a mapping with a string `name`. A document that is a scalar or a list, or a mapping without a string `name`, makes the reply's `name` undefined; this is not modelled.
- `Math.random` id generation: the id is a parameter.
- Express routing, `res.json`, `app.listen`, `console` logging: handlers return a status code and a body datatype.
- The `setTimeout` settle delays, `createRedisContainer` (which pins host port 6379) and `main` in demo.js: timing and demo code.
- Stream details: chunks are taken as the text handed to the data listener. The multiplexing headers the engine puts on attached output streams, and the decoding of bytes split across chunks, are not modelled.
- azure-redis/app.js: a remote cache client over the network.
- Concurrent handlers: the model is sequential, one handler run at a time. In the server, an execute and an end for one session could interleave at their awaits.
