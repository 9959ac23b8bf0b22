/** The session registry of `backend/app.js`: a table from session id to the
    store container, store client, scenario configuration and step counter of
    that session, and the three request handlers that start a session, run a
    store command in it, and end it.

    The container engine, the store client and the configuration loader are
    outside the model: each awaited call is an input that either succeeds or
    fails with a message. Whether a container runs is the engine's business
    and reaches the handlers only through an inspection, which is an input
    too; the container is reduced to its name and host port, and the client
    to its address, timeout and whether it is open.
    Every handler is given twice: as a step function on the table, which the
    lemmas are about, and as a method of `Registry`, which changes the table in
    place the way the handler does and is proved to take that step. */
module Sessions {
  import opened Outcomes
  import opened JsText

  type SessionId = string

  const HTTP_OK := 200
  const HTTP_BAD_REQUEST := 400
  const HTTP_NOT_FOUND := 404
  const HTTP_SERVER_ERROR := 500

  /** The container every session runs, and the port the store listens on in it. */
  const IMAGE := "redis:latest"
  const SERVICE_PORT := "6379/tcp"
  /** Host port "0" asks the engine for a free ephemeral port. */
  const ANY_HOST_PORT := "0"
  const CONNECT_TIMEOUT_MS := 10000

  const MSG_START_FAILED := "Failed to start session"
  const MSG_STARTED := "Session started"
  const MSG_COMMAND_REQUIRED := "Command is required"
  const MSG_NOT_FOUND := "Session not found"
  const MSG_END_FAILED := "Failed to end session"
  const MSG_ENDED := "Session ended"
  /** The TypeError the JavaScript engine raises when the request carries no
      argument list to spread into the call. */
  const MSG_ARGS_NOT_ITERABLE := "Spread syntax requires ...iterable[Symbol.iterator] to be a function"

  function InvalidCommandMessage(command: string): string {
    "Invalid Redis command: " + command
  }

  function ContainerName(id: SessionId): string { "redis-session-" + id }

  function ClientUrl(hostPort: string): string { "redis://localhost:" + hostPort }

  /** The scenario descriptor loaded from the configuration file; the
      handlers only read its name. */
  datatype SessionConfig = SessionConfig(name: string, steps: seq<string>)

  datatype Container = Container(name: string, hostPort: string)

  datatype Client = Client(url: string, connectTimeout: nat, isOpen: bool)

  /** `config` is what the loader produced: `None` when the configuration
      file holds no document (an empty file, or one holding only `null`). */
  datatype Session = Session(container: Container, client: Client, config: Option<SessionConfig>, currentStep: nat)

  /** A store reply, returned to the caller as it is. */
  datatype Reply = Nil | Integer(n: int) | Text(s: string) | List(items: seq<Reply>)

  /** The JSON bodies the handlers send. */
  datatype Body =
    | Started(sessionId: SessionId, message: string, name: string)
    | Error(error: string)
    | CommandResult(result: Reply)
    | CommandFailed(error: string, command: string, args: Option<seq<string>>)
    | Ended(message: string)

  datatype Response = Response(status: nat, body: Body)

  /** The external calls a handler makes, in the order it makes them; a call
      that fails is listed, and nothing after it. */
  datatype Effect =
    | CreateContainer(name: string, image: string, servicePort: string, hostPort: string)
    | StartContainer(name: string)
    | InspectContainer(name: string)
    | ConnectClient(url: string)
    | LoadConfig
    | QuitClient(url: string)
    | StopContainer(name: string)
    | RemoveContainer(name: string)
    | SendCommand(name: string, args: seq<string>)

  /** What each awaited call of a handler does. In a start, `inspect` yields
      the published host port and `load` the configuration document, if any. */
  datatype StartEffects = StartEffects(create: Outcome, start: Outcome, inspect: Result<string>,
                                       connect: Outcome, load: Result<Option<SessionConfig>>)
  /** In an execute, `inspect` yields whether the engine reports the container
      running, and `openAfter` is whether the client is still open once the
      command has settled (a `quit` or `disconnect` closes it). */
  datatype ExecuteEffects = ExecuteEffects(inspect: Result<bool>, start: Outcome, connect: Outcome,
                                           call: Result<Reply>, openAfter: bool)
  datatype EndEffects = EndEffects(quit: Outcome, stop: Outcome, remove: Outcome)

  /** One handler run: the table afterwards, the response, the calls made. */
  datatype Transition = Transition(sessions: map<SessionId, Session>, response: Response, effects: seq<Effect>)

  /** A session entry is tied to its id: its container is named after the id,
      and its client points at the container's host port with the fixed
      connect timeout. */
  predicate WellFormed(id: SessionId, s: Session) {
    s.container.name == ContainerName(id) &&
    s.client.url == ClientUrl(s.container.hostPort) &&
    s.client.connectTimeout == CONNECT_TIMEOUT_MS
  }

  predicate ValidTable(sessions: map<SessionId, Session>) {
    forall id :: id in sessions ==> WellFormed(id, sessions[id])
  }

  /** In a well-formed table no two sessions share a container. */
  lemma DistinctContainers(sessions: map<SessionId, Session>, a: SessionId, b: SessionId)
    requires ValidTable(sessions) && a in sessions && b in sessions && a != b
    ensures sessions[a].container.name != sessions[b].container.name
  {
    // the id can be read back from the container name
    assert ContainerName(a)[14..] == a && ContainerName(b)[14..] == b;
  }

  /** The session with its client marked open or closed. */
  function WithClientOpen(s: Session, open: bool): Session {
    s.(client := s.client.(isOpen := open))
  }

  /** Opening or closing a client keeps the table well formed. */
  lemma WithClientOpenKeepsValid(sessions: map<SessionId, Session>, id: SessionId, open: bool)
    requires ValidTable(sessions) && id in sessions
    ensures ValidTable(sessions[id := WithClientOpen(sessions[id], open)])
  {
  }

  // ---------------------------------------------------------------- start

  function StartFailure(sessions: map<SessionId, Session>, effects: seq<Effect>): Transition {
    Transition(sessions, Response(HTTP_SERVER_ERROR, Error(MSG_START_FAILED)), effects)
  }

  /** The entry a start stores once every awaited call has succeeded. */
  function NewSession(id: SessionId, fx: StartEffects): Session
    requires fx.inspect.Ok? && fx.load.Ok?
  {
    Session(Container(ContainerName(id), fx.inspect.value),
            Client(ClientUrl(fx.inspect.value), CONNECT_TIMEOUT_MS, true), fx.load.value, 0)
  }

  /** POST /start-session: create and start a container named after `id` with
      the service port published on an ephemeral host port, read that port
      back, connect a client to it, load the configuration, and record the
      session. Any failing call answers 500. The entry is recorded before the
      reply reads the scenario name, so a configuration file holding no
      document answers 500 with the entry already in the table. */
  function StartStep(sessions: map<SessionId, Session>, id: SessionId, fx: StartEffects): Transition {
    var name := ContainerName(id);
    var created := [CreateContainer(name, IMAGE, SERVICE_PORT, ANY_HOST_PORT)];
    if fx.create.Failed? then StartFailure(sessions, created)
    else
      var started := created + [StartContainer(name)];
      if fx.start.Failed? then StartFailure(sessions, started)
      else
        var inspected := started + [InspectContainer(name)];
        if fx.inspect.Err? then StartFailure(sessions, inspected)
        else
          var connected := inspected + [ConnectClient(ClientUrl(fx.inspect.value))];
          if fx.connect.Failed? then StartFailure(sessions, connected)
          else
            var loaded := connected + [LoadConfig];
            if fx.load.Err? then StartFailure(sessions, loaded)
            else
              var stored := sessions[id := NewSession(id, fx)];
              match fx.load.value
              case None => StartFailure(stored, loaded)
              case Some(config) => Transition(stored, Response(HTTP_OK, Started(id, MSG_STARTED, config.name)), loaded)
  }

  /** Every awaited call of a start succeeded, so the entry is recorded. */
  predicate StartStores(fx: StartEffects) {
    fx.create.Done? && fx.start.Done? && fx.inspect.Ok? && fx.connect.Done? && fx.load.Ok?
  }

  /** ... and the configuration file held a document, so the reply is sent. */
  predicate StartSucceeds(fx: StartEffects) {
    StartStores(fx) && fx.load.value.Some?
  }

  /** Start answers 200 exactly when every call succeeded and a configuration
      was loaded, and 500 otherwise; the table changes only when every call
      succeeded, by gaining the id, even when the answer is 500. */
  lemma StartCommitsOnlyOnSuccess(sessions: map<SessionId, Session>, id: SessionId, fx: StartEffects)
    ensures var t := StartStep(sessions, id, fx);
      (t.response.status == HTTP_OK <==> StartSucceeds(fx)) &&
      (!StartSucceeds(fx) ==> t.response == Response(HTTP_SERVER_ERROR, Error(MSG_START_FAILED))) &&
      (!StartStores(fx) ==> t.sessions == sessions) &&
      (StartStores(fx) ==> t.sessions.Keys == sessions.Keys + {id})
  {
  }

  /** A configuration file without a document: every call succeeded, the
      entry with its running container and open client is recorded, and yet
      the caller is told the start failed and never learns the id. */
  lemma StartEmptyConfigKeepsEntry(sessions: map<SessionId, Session>, id: SessionId, fx: StartEffects)
    requires StartStores(fx) && fx.load.value.None?
    ensures var t := StartStep(sessions, id, fx);
      t.response == Response(HTTP_SERVER_ERROR, Error(MSG_START_FAILED)) &&
      id in t.sessions && t.sessions[id].client.isOpen && t.sessions[id].config.None? &&
      RemoveContainer(ContainerName(id)) !in t.effects
  {
  }

  /** The start handler as evidently intended: the configuration is checked
      before the session is recorded, so a start that answers 500 leaves the
      table as it was. */
  function CheckedStartStep(sessions: map<SessionId, Session>, id: SessionId, fx: StartEffects): Transition {
    var t := StartStep(sessions, id, fx);
    if StartStores(fx) && fx.load.value.None? then StartFailure(sessions, t.effects) else t
  }

  /** With the check, the table changes exactly when the caller is told the id. */
  lemma CheckedStartCommitsOnlyOnSuccess(sessions: map<SessionId, Session>, id: SessionId, fx: StartEffects)
    ensures var t := CheckedStartStep(sessions, id, fx);
      (t.response.status == HTTP_OK <==> StartSucceeds(fx)) &&
      (StartSucceeds(fx) ==> t.response.body == Started(id, MSG_STARTED, fx.load.value.value.name) &&
                             t.sessions == sessions[id := NewSession(id, fx)]) &&
      (!StartSucceeds(fx) ==> t.sessions == sessions &&
                              t.response == Response(HTTP_SERVER_ERROR, Error(MSG_START_FAILED)))
  {
  }

  /** A start whose calls all succeed records the session under its id with
      step 0, the loaded configuration, a container named after the id on the
      inspected port and an open client on that port; every other entry is
      untouched, and when a configuration was loaded the answer carries the
      id and the scenario name. */
  lemma StartRecordsSession(sessions: map<SessionId, Session>, id: SessionId, fx: StartEffects)
    requires StartStores(fx)
    ensures var t := StartStep(sessions, id, fx);
      t.sessions.Keys == sessions.Keys + {id} &&
      (forall other :: other in sessions && other != id ==> t.sessions[other] == sessions[other]) &&
      t.sessions[id].currentStep == 0 &&
      t.sessions[id].config == fx.load.value &&
      t.sessions[id].container == Container(ContainerName(id), fx.inspect.value) &&
      t.sessions[id].client == Client(ClientUrl(fx.inspect.value), CONNECT_TIMEOUT_MS, true) &&
      (fx.load.value.Some? ==> t.response == Response(HTTP_OK, Started(id, MSG_STARTED, fx.load.value.value.name)))
  {
  }

  /** A fresh id makes the table grow by exactly one entry. */
  lemma StartGrowsByOne(sessions: map<SessionId, Session>, id: SessionId, fx: StartEffects)
    requires StartStores(fx) && id !in sessions
    ensures |StartStep(sessions, id, fx).sessions| == |sessions| + 1
  {
    var t := StartStep(sessions, id, fx);
    assert t.sessions.Keys == sessions.Keys + {id};
    assert |sessions.Keys + {id}| == |sessions.Keys| + 1;
  }

  /** The container is always requested with the host port left to the engine. */
  lemma StartRequestsEphemeralPort(sessions: map<SessionId, Session>, id: SessionId, fx: StartEffects)
    ensures var t := StartStep(sessions, id, fx);
      |t.effects| >= 1 && t.effects[0] == CreateContainer(ContainerName(id), IMAGE, SERVICE_PORT, ANY_HOST_PORT)
  {
  }

  /** A start that fails after the container was created does not stop or
      remove it: no teardown call is made. */
  lemma StartFailureLeavesContainer(sessions: map<SessionId, Session>, id: SessionId, fx: StartEffects)
    requires fx.create.Done? && !StartSucceeds(fx)
    ensures var t := StartStep(sessions, id, fx);
      t.effects[0].CreateContainer? &&
      forall k :: 0 <= k < |t.effects| ==> !t.effects[k].StopContainer? && !t.effects[k].RemoveContainer?
  {
  }

  lemma StartKeepsValid(sessions: map<SessionId, Session>, id: SessionId, fx: StartEffects)
    requires ValidTable(sessions)
    ensures ValidTable(StartStep(sessions, id, fx).sessions)
  {
  }

  // -------------------------------------------------------------- execute

  function CommandFailure(sessions: map<SessionId, Session>, command: string, args: Option<seq<string>>,
                          message: string, effects: seq<Effect>): Transition {
    Transition(sessions, Response(HTTP_BAD_REQUEST, CommandFailed(message, command, args)), effects)
  }

  /** POST /execute-command/:sessionId. A missing or empty command is refused
      first and an unknown session next; then the container is started if the
      engine reports it stopped, the client connected if it is not open, the
      lowercased command name checked against `commands` (the commands the
      client offers), and the command sent with the arguments in the order
      given; the command itself may leave the client closed. Whatever throws
      after the lookup answers 400 with the error's message. */
  function ExecuteStep(sessions: map<SessionId, Session>, commands: set<string>, id: SessionId,
                       command: Option<string>, args: Option<seq<string>>, fx: ExecuteEffects): Transition {
    if command.None? || command.value == "" then
      Transition(sessions, Response(HTTP_BAD_REQUEST, Error(MSG_COMMAND_REQUIRED)), [])
    else if id !in sessions then
      Transition(sessions, Response(HTTP_NOT_FOUND, Error(MSG_NOT_FOUND)), [])
    else ExecuteInSession(sessions, commands, id, command.value, args, fx)
  }

  /** The try block of execute, for a session that exists: the container
      check, the client check, then `Dispatch`. */
  function ExecuteInSession(sessions: map<SessionId, Session>, commands: set<string>, id: SessionId,
                            cmd: string, args: Option<seq<string>>, fx: ExecuteEffects): Transition
    requires id in sessions
  {
    var s := sessions[id];
    var inspected := [InspectContainer(s.container.name)];
    match fx.inspect
    case Err(m) => CommandFailure(sessions, cmd, args, m, inspected)
    case Ok(running) =>
      if !running && fx.start.Failed? then
        CommandFailure(sessions, cmd, args, fx.start.message, inspected + [StartContainer(s.container.name)])
      else
        var started := if running then inspected else inspected + [StartContainer(s.container.name)];
        if !s.client.isOpen && fx.connect.Failed? then
          CommandFailure(sessions, cmd, args, fx.connect.message, started + [ConnectClient(s.client.url)])
        else
          var ready := if s.client.isOpen then started else started + [ConnectClient(s.client.url)];
          var d := Dispatch(sessions, commands, id, cmd, args, fx);
          Transition(d.sessions, d.response, ready + d.effects)
  }

  /** What execute does once the container runs and the client is open: the
      name check, the spread of the arguments, and the command itself; the
      calls listed are those made from there on. */
  function Dispatch(sessions: map<SessionId, Session>, commands: set<string>, id: SessionId,
                    cmd: string, args: Option<seq<string>>, fx: ExecuteEffects): Transition
    requires id in sessions
  {
    var connected := sessions[id := WithClientOpen(sessions[id], true)];
    var name := Lower(cmd);
    if name !in commands then
      Transition(connected, Response(HTTP_BAD_REQUEST, Error(InvalidCommandMessage(cmd))), [])
    else if args.None? then
      CommandFailure(connected, cmd, args, MSG_ARGS_NOT_ITERABLE, [])
    else
      var after := sessions[id := WithClientOpen(sessions[id], fx.openAfter)];
      match fx.call
      case Err(m) => CommandFailure(after, cmd, args, m, [SendCommand(name, args.value)])
      case Ok(r) => Transition(after, Response(HTTP_OK, CommandResult(r)), [SendCommand(name, args.value)])
  }

  /** A missing or empty command is refused with 400 before the session is
      looked up: nothing changes and no call is made, whatever the id. */
  lemma ExecuteRequiresCommand(sessions: map<SessionId, Session>, commands: set<string>, id: SessionId,
                               command: Option<string>, args: Option<seq<string>>, fx: ExecuteEffects)
    requires command.None? || command.value == ""
    ensures var t := ExecuteStep(sessions, commands, id, command, args, fx);
      t == Transition(sessions, Response(HTTP_BAD_REQUEST, Error(MSG_COMMAND_REQUIRED)), [])
  {
  }

  /** An id with no entry answers 404, changes nothing and makes no call,
      whatever the command. */
  lemma ExecuteUnknownSession(sessions: map<SessionId, Session>, commands: set<string>, id: SessionId,
                              command: Option<string>, args: Option<seq<string>>, fx: ExecuteEffects)
    requires command.Some? && command.value != "" && id !in sessions
    ensures var t := ExecuteStep(sessions, commands, id, command, args, fx);
      t == Transition(sessions, Response(HTTP_NOT_FOUND, Error(MSG_NOT_FOUND)), [])
  {
  }

  /** A failing inspection answers 400 with its message; nothing changes and
      nothing else is called. */
  lemma ExecuteInspectFails(sessions: map<SessionId, Session>, commands: set<string>, id: SessionId,
                            command: Option<string>, args: Option<seq<string>>, fx: ExecuteEffects)
    requires command.Some? && command.value != "" && id in sessions && fx.inspect.Err?
    ensures ExecuteStep(sessions, commands, id, command, args, fx) ==
      Transition(sessions, Response(HTTP_BAD_REQUEST, CommandFailed(fx.inspect.message, command.value, args)),
                 [InspectContainer(sessions[id].container.name)])
  {
  }

  /** A stopped container whose start fails answers 400 with the start's
      message; nothing changes and the client is not touched. */
  lemma ExecuteStartFails(sessions: map<SessionId, Session>, commands: set<string>, id: SessionId,
                          command: Option<string>, args: Option<seq<string>>, fx: ExecuteEffects)
    requires command.Some? && command.value != "" && id in sessions
    requires fx.inspect == Ok(false) && fx.start.Failed?
    ensures var name := sessions[id].container.name;
      ExecuteStep(sessions, commands, id, command, args, fx) ==
      Transition(sessions, Response(HTTP_BAD_REQUEST, CommandFailed(fx.start.message, command.value, args)),
                 [InspectContainer(name), StartContainer(name)])
  {
  }

  /** A closed client whose reconnect fails answers 400 with the connect's
      message; nothing changes and no command is sent. */
  lemma ExecuteConnectFails(sessions: map<SessionId, Session>, commands: set<string>, id: SessionId,
                            command: Option<string>, args: Option<seq<string>>, fx: ExecuteEffects)
    requires command.Some? && command.value != "" && id in sessions
    requires fx.inspect.Ok? && (fx.inspect.value || fx.start.Done?)
    requires !sessions[id].client.isOpen && fx.connect.Failed?
    ensures var t := ExecuteStep(sessions, commands, id, command, args, fx);
      t.sessions == sessions &&
      t.response == Response(HTTP_BAD_REQUEST, CommandFailed(fx.connect.message, command.value, args)) &&
      t.effects[|t.effects| - 1] == ConnectClient(sessions[id].client.url) &&
      forall k :: 0 <= k < |t.effects| ==> !t.effects[k].SendCommand?
  {
  }

  /** A request without an argument list fails on spreading it, after the
      health checks and the name check: 400 with the runtime's message, and no
      command is sent. */
  lemma ExecuteArgsMissing(sessions: map<SessionId, Session>, commands: set<string>, id: SessionId,
                           command: Option<string>, fx: ExecuteEffects)
    requires command.Some? && command.value != "" && id in sessions
    requires fx.inspect.Ok? && (fx.inspect.value || fx.start.Done?)
    requires (sessions[id].client.isOpen || fx.connect.Done?) && Lower(command.value) in commands
    ensures var t := ExecuteStep(sessions, commands, id, command, None, fx);
      t.sessions == sessions[id := WithClientOpen(sessions[id], true)] &&
      t.response == Response(HTTP_BAD_REQUEST, CommandFailed(MSG_ARGS_NOT_ITERABLE, command.value, None)) &&
      forall k :: 0 <= k < |t.effects| ==> !t.effects[k].SendCommand?
  {
  }

  /** Execute changes at most the named entry, and only its client's open
      flag: opened by the reconnect, or as the command left it. */
  lemma ExecuteTableShape(sessions: map<SessionId, Session>, commands: set<string>, id: SessionId,
                          command: Option<string>, args: Option<seq<string>>, fx: ExecuteEffects)
    ensures var t := ExecuteStep(sessions, commands, id, command, args, fx);
      t.sessions == sessions ||
      (id in sessions && (t.sessions == sessions[id := WithClientOpen(sessions[id], true)] ||
                          t.sessions == sessions[id := WithClientOpen(sessions[id], fx.openAfter)]))
  {
  }

  /** Execute never adds or removes an entry, never touches another session,
      and changes nothing of the named one but whether its client is open. */
  lemma ExecuteKeepsEntries(sessions: map<SessionId, Session>, commands: set<string>, id: SessionId,
                            command: Option<string>, args: Option<seq<string>>, fx: ExecuteEffects)
    ensures var t := ExecuteStep(sessions, commands, id, command, args, fx);
      t.sessions.Keys == sessions.Keys &&
      (forall other :: other in sessions && other != id ==> t.sessions[other] == sessions[other]) &&
      (id in sessions ==> t.sessions[id] == WithClientOpen(sessions[id], t.sessions[id].client.isOpen))
  {
    ExecuteTableShape(sessions, commands, id, command, args, fx);
  }

  /** A command is sent only as the last call of the run, only under its
      lowercased name when that name is one the client offers, with the
      arguments exactly as supplied, and only once the container was reported
      running or was started and the client was open or was connected. */
  lemma ExecuteDispatchesOnlyWhenReady(sessions: map<SessionId, Session>, commands: set<string>, id: SessionId,
                                       command: Option<string>, args: Option<seq<string>>, fx: ExecuteEffects,
                                       k: nat)
    requires var t := ExecuteStep(sessions, commands, id, command, args, fx);
      k < |t.effects| && t.effects[k].SendCommand?
    ensures var t := ExecuteStep(sessions, commands, id, command, args, fx);
      k == |t.effects| - 1 &&
      command.Some? && id in sessions && args.Some? &&
      t.effects[k] == SendCommand(Lower(command.value), args.value) &&
      Lower(command.value) in commands &&
      fx.inspect.Ok? &&
      (fx.inspect.value || (fx.start.Done? && StartContainer(sessions[id].container.name) in t.effects[..k])) &&
      (sessions[id].client.isOpen || (fx.connect.Done? && ConnectClient(sessions[id].client.url) in t.effects[..k]))
  {
  }

  /** When the session exists and every health-check call succeeds, a start
      call is made exactly when the container was reported stopped, and a
      connect call exactly when the client was closed; the client is then
      open, unless the command was sent and left it closed. */
  lemma ExecuteHeals(sessions: map<SessionId, Session>, commands: set<string>, id: SessionId,
                     command: Option<string>, args: Option<seq<string>>, fx: ExecuteEffects)
    requires command.Some? && command.value != "" && id in sessions
    requires fx.inspect.Ok? && fx.start.Done? && fx.connect.Done?
    ensures var t := ExecuteStep(sessions, commands, id, command, args, fx);
      var s := sessions[id];
      var sent := Lower(command.value) in commands && args.Some?;
      t.effects[0] == InspectContainer(s.container.name) &&
      (StartContainer(s.container.name) in t.effects <==> !fx.inspect.value) &&
      (ConnectClient(s.client.url) in t.effects <==> !s.client.isOpen) &&
      t.sessions == sessions[id := WithClientOpen(s, if sent then fx.openAfter else true)]
  {
  }

  /** A command that leaves the client closed (`quit`, `disconnect`) is
      followed, in the next execute on that session, by a reconnect. */
  lemma ExecuteReconnectsAfterClose(sessions: map<SessionId, Session>, commands: set<string>, id: SessionId,
                                    command1: Option<string>, args1: Option<seq<string>>, fx1: ExecuteEffects,
                                    command2: Option<string>, args2: Option<seq<string>>, fx2: ExecuteEffects)
    requires var t := ExecuteStep(sessions, commands, id, command1, args1, fx1);
      |t.effects| > 0 && t.effects[|t.effects| - 1].SendCommand? && !fx1.openAfter
    requires command2.Some? && command2.value != "" && fx2.inspect.Ok? && (fx2.inspect.value || fx2.start.Done?)
    ensures var t1 := ExecuteStep(sessions, commands, id, command1, args1, fx1);
      var t2 := ExecuteStep(t1.sessions, commands, id, command2, args2, fx2);
      id in sessions && ConnectClient(sessions[id].client.url) in t2.effects
  {
    var t1 := ExecuteStep(sessions, commands, id, command1, args1, fx1);
    ExecuteDispatchesOnlyWhenReady(sessions, commands, id, command1, args1, fx1, |t1.effects| - 1);
    assert t1.sessions[id] == WithClientOpen(sessions[id], false);
  }

  /** A command name the client does not offer is refused with 400 and never
      sent to the store. */
  lemma ExecuteRejectsUnknownCommand(sessions: map<SessionId, Session>, commands: set<string>, id: SessionId,
                                     command: Option<string>, args: Option<seq<string>>, fx: ExecuteEffects)
    requires command.Some? && Lower(command.value) !in commands
    ensures var t := ExecuteStep(sessions, commands, id, command, args, fx);
      t.response.status != HTTP_OK &&
      (command.value != "" && id in sessions && fx.inspect.Ok? &&
       (fx.inspect.value || fx.start.Done?) &&
       (sessions[id].client.isOpen || fx.connect.Done?) ==>
         t.response == Response(HTTP_BAD_REQUEST, Error(InvalidCommandMessage(command.value)))) &&
      forall k :: 0 <= k < |t.effects| ==> !t.effects[k].SendCommand?
  {
  }

  /** Names that differ only in the case of letters are handled alike: same
      table, same status, same calls. */
  lemma ExecuteIgnoresCase(sessions: map<SessionId, Session>, commands: set<string>, id: SessionId,
                           c1: string, c2: string, args: Option<seq<string>>, fx: ExecuteEffects)
    requires c1 != "" && c2 != "" && EqualIgnoringCase(c1, c2)
    ensures var t1 := ExecuteStep(sessions, commands, id, Some(c1), args, fx);
      var t2 := ExecuteStep(sessions, commands, id, Some(c2), args, fx);
      t1.sessions == t2.sessions && t1.response.status == t2.response.status && t1.effects == t2.effects
  {
    LowerEqualIff(c1, c2);
  }

  /** The answers execute gives: 200 exactly when the command was sent and the
      store accepted it, carrying the store's reply; a store error answers 400
      with the store's message; the session stays in the table either way. */
  lemma ExecuteOutcome(sessions: map<SessionId, Session>, commands: set<string>, id: SessionId,
                       command: Option<string>, args: Option<seq<string>>, fx: ExecuteEffects)
    ensures var t := ExecuteStep(sessions, commands, id, command, args, fx);
      t.response.status in {HTTP_OK, HTTP_BAD_REQUEST, HTTP_NOT_FOUND} &&
      (t.response.status == HTTP_NOT_FOUND <==> command.Some? && command.value != "" && id !in sessions) &&
      (t.response.status == HTTP_OK <==>
         |t.effects| > 0 && t.effects[|t.effects| - 1].SendCommand? && fx.call.Ok?) &&
      (t.response.status == HTTP_OK ==> t.response.body == CommandResult(fx.call.value)) &&
      (|t.effects| > 0 && t.effects[|t.effects| - 1].SendCommand? && fx.call.Err? ==>
         t.response == Response(HTTP_BAD_REQUEST, CommandFailed(fx.call.message, command.value, args))) &&
      (id in sessions ==> id in t.sessions)
  {
  }

  lemma ExecuteKeepsValid(sessions: map<SessionId, Session>, commands: set<string>, id: SessionId,
                          command: Option<string>, args: Option<seq<string>>, fx: ExecuteEffects)
    requires ValidTable(sessions)
    ensures ValidTable(ExecuteStep(sessions, commands, id, command, args, fx).sessions)
  {
    ExecuteTableShape(sessions, commands, id, command, args, fx);
  }

  // ------------------------------------------------------------------ end

  function EndFailure(sessions: map<SessionId, Session>, effects: seq<Effect>): Transition {
    Transition(sessions, Response(HTTP_SERVER_ERROR, Error(MSG_END_FAILED)), effects)
  }

  /** POST /end-session/:sessionId: quit the client, stop the container,
      remove the container, and only then drop the entry. A failing call
      answers 500 and leaves the entry, its client closed once quit succeeded. */
  function EndStep(sessions: map<SessionId, Session>, id: SessionId, fx: EndEffects): Transition {
    if id !in sessions then
      Transition(sessions, Response(HTTP_NOT_FOUND, Error(MSG_NOT_FOUND)), [])
    else
      var s := sessions[id];
      var quit := [QuitClient(s.client.url)];
      if fx.quit.Failed? then EndFailure(sessions, quit)
      else
        var closed := sessions[id := WithClientOpen(s, false)];
        var stop := quit + [StopContainer(s.container.name)];
        if fx.stop.Failed? then EndFailure(closed, stop)
        else
          var remove := stop + [RemoveContainer(s.container.name)];
          if fx.remove.Failed? then EndFailure(closed, remove)
          else Transition(sessions - {id}, Response(HTTP_OK, Ended(MSG_ENDED)), remove)
  }

  predicate EndSucceeds(fx: EndEffects) {
    fx.quit.Done? && fx.stop.Done? && fx.remove.Done?
  }

  lemma EndUnknownSession(sessions: map<SessionId, Session>, id: SessionId, fx: EndEffects)
    requires id !in sessions
    ensures EndStep(sessions, id, fx) == Transition(sessions, Response(HTTP_NOT_FOUND, Error(MSG_NOT_FOUND)), [])
  {
  }

  /** A successful end quits, stops and removes, in that order, and removes
      exactly the named entry. */
  lemma EndRemovesOnlyNamed(sessions: map<SessionId, Session>, id: SessionId, fx: EndEffects)
    requires id in sessions && EndSucceeds(fx)
    ensures var t := EndStep(sessions, id, fx);
      var s := sessions[id];
      t.response == Response(HTTP_OK, Ended(MSG_ENDED)) &&
      t.sessions.Keys == sessions.Keys - {id} &&
      (forall other :: other in t.sessions ==> t.sessions[other] == sessions[other]) &&
      t.effects == [QuitClient(s.client.url), StopContainer(s.container.name), RemoveContainer(s.container.name)]
  {
  }

  /** A failing teardown call answers 500 and the entry stays, its client
      closed once quit succeeded; the calls stop at the one that failed. */
  lemma EndFailureKeepsEntry(sessions: map<SessionId, Session>, id: SessionId, fx: EndEffects)
    requires id in sessions && !EndSucceeds(fx)
    ensures var t := EndStep(sessions, id, fx);
      var s := sessions[id];
      var calls := [QuitClient(s.client.url), StopContainer(s.container.name), RemoveContainer(s.container.name)];
      t.response == Response(HTTP_SERVER_ERROR, Error(MSG_END_FAILED)) &&
      t.sessions == sessions[id := WithClientOpen(s, s.client.isOpen && fx.quit.Failed?)] &&
      t.effects == calls[..if fx.quit.Failed? then 1 else if fx.stop.Failed? then 2 else 3]
  {
    var s := sessions[id];
    if fx.quit.Failed? {
      assert WithClientOpen(s, s.client.isOpen) == s;
    }
  }

  /** Ending a session twice: the second end finds nothing, answers 404 and
      makes no teardown call; so does a later execute. */
  lemma EndTwice(sessions: map<SessionId, Session>, commands: set<string>, id: SessionId,
                 fx1: EndEffects, fx2: EndEffects,
                 command: string, args: Option<seq<string>>, fx: ExecuteEffects)
    requires EndStep(sessions, id, fx1).response.status == HTTP_OK
    requires command != ""
    ensures var after := EndStep(sessions, id, fx1).sessions;
      EndStep(after, id, fx2) == Transition(after, Response(HTTP_NOT_FOUND, Error(MSG_NOT_FOUND)), []) &&
      ExecuteStep(after, commands, id, Some(command), args, fx).response.status == HTTP_NOT_FOUND
  {
    var t := EndStep(sessions, id, fx1);
    assert id in sessions && EndSucceeds(fx1);
    assert id !in t.sessions;
  }

  /** Start followed by end of the same fresh id leaves the table as it was,
      whether or not the start answered 200. */
  lemma StartThenEnd(sessions: map<SessionId, Session>, id: SessionId, sfx: StartEffects, efx: EndEffects)
    requires id !in sessions && StartStores(sfx) && EndSucceeds(efx)
    ensures EndStep(StartStep(sessions, id, sfx).sessions, id, efx).sessions == sessions
  {
    var started := StartStep(sessions, id, sfx).sessions;
    assert started - {id} == sessions;
  }

  lemma EndKeepsValid(sessions: map<SessionId, Session>, id: SessionId, fx: EndEffects)
    requires ValidTable(sessions)
    ensures ValidTable(EndStep(sessions, id, fx).sessions)
  {
  }

  // ------------------------------------------------------------- registry

  /** The server's module-level `sessions` map with its three handlers. */
  class Registry {
    /** The command names the store client offers, in lower case. */
    const commands: set<string>
    var sessions: map<SessionId, Session>
    /** Every external call made so far, in order. */
    ghost var trace: seq<Effect>

    ghost predicate Valid()
      reads this
    {
      ValidTable(sessions)
    }

    constructor (commands: set<string>)
      ensures Valid()
      ensures this.commands == commands && sessions == map[] && trace == []
    {
      this.commands := commands;
      sessions := map[];
      trace := [];
    }

    method StartSession(id: SessionId, fx: StartEffects) returns (response: Response)
      requires Valid()
      modifies this
      ensures Valid()
      ensures var t := StartStep(old(sessions), id, fx);
        sessions == t.sessions && response == t.response && trace == old(trace) + t.effects
    {
      StartKeepsValid(sessions, id, fx);
      var name := ContainerName(id);
      trace := trace + [CreateContainer(name, IMAGE, SERVICE_PORT, ANY_HOST_PORT)];
      if fx.create.Failed? {
        return Response(HTTP_SERVER_ERROR, Error(MSG_START_FAILED));
      }
      trace := trace + [StartContainer(name)];
      if fx.start.Failed? {
        return Response(HTTP_SERVER_ERROR, Error(MSG_START_FAILED));
      }
      trace := trace + [InspectContainer(name)];
      if fx.inspect.Err? {
        return Response(HTTP_SERVER_ERROR, Error(MSG_START_FAILED));
      }
      var port := fx.inspect.value;
      var client := Client(ClientUrl(port), CONNECT_TIMEOUT_MS, false);
      trace := trace + [ConnectClient(client.url)];
      if fx.connect.Failed? {
        return Response(HTTP_SERVER_ERROR, Error(MSG_START_FAILED));
      }
      client := client.(isOpen := true);
      trace := trace + [LoadConfig];
      if fx.load.Err? {
        return Response(HTTP_SERVER_ERROR, Error(MSG_START_FAILED));
      }
      var config := fx.load.value;
      sessions := sessions[id := Session(Container(name, port), client, config, 0)];
      if config.None? {
        // reading the scenario name of a missing document throws
        return Response(HTTP_SERVER_ERROR, Error(MSG_START_FAILED));
      }
      response := Response(HTTP_OK, Started(id, MSG_STARTED, config.value.name));
    }

    method ExecuteCommand(id: SessionId, command: Option<string>, args: Option<seq<string>>, fx: ExecuteEffects)
      returns (response: Response)
      requires Valid()
      modifies this
      ensures Valid()
      ensures var t := ExecuteStep(old(sessions), commands, id, command, args, fx);
        sessions == t.sessions && response == t.response && trace == old(trace) + t.effects
    {
      if command.None? || command.value == "" {
        return Response(HTTP_BAD_REQUEST, Error(MSG_COMMAND_REQUIRED));
      }
      if id !in sessions {
        return Response(HTTP_NOT_FOUND, Error(MSG_NOT_FOUND));
      }
      response := CheckAndInvoke(id, command.value, args, fx);
    }

    /** The execute handler's try block for a session in the table. */
    method CheckAndInvoke(id: SessionId, cmd: string, args: Option<seq<string>>, fx: ExecuteEffects)
      returns (response: Response)
      requires Valid() && id in sessions
      modifies this
      ensures Valid()
      ensures var t := ExecuteInSession(old(sessions), commands, id, cmd, args, fx);
        sessions == t.sessions && response == t.response && trace == old(trace) + t.effects
    {
      var table := sessions;
      var session := sessions[id];
      ghost var calls := [InspectContainer(session.container.name)];
      trace := trace + calls;
      if fx.inspect.Err? {
        return Response(HTTP_BAD_REQUEST, CommandFailed(fx.inspect.message, cmd, args));
      }
      if !fx.inspect.value {
        calls := calls + [StartContainer(session.container.name)];
        trace := trace + [StartContainer(session.container.name)];
        if fx.start.Failed? {
          return Response(HTTP_BAD_REQUEST, CommandFailed(fx.start.message, cmd, args));
        }
      }
      if !session.client.isOpen {
        calls := calls + [ConnectClient(session.client.url)];
        trace := trace + [ConnectClient(session.client.url)];
        if fx.connect.Failed? {
          return Response(HTTP_BAD_REQUEST, CommandFailed(fx.connect.message, cmd, args));
        }
      }
      assert trace == old(trace) + calls;
      WithClientOpenKeepsValid(table, id, true);
      sessions := table[id := WithClientOpen(session, true)];
      response := Invoke(table, id, cmd, args, fx);
      ghost var d := Dispatch(table, commands, id, cmd, args, fx);
      assert trace == old(trace) + (calls + d.effects);
    }

    /** The execute handler from the command check on, the container running
        and the client open: `before` is the table the handler started from. */
    method Invoke(before: map<SessionId, Session>, id: SessionId, cmd: string, args: Option<seq<string>>,
                  fx: ExecuteEffects) returns (response: Response)
      requires ValidTable(before) && id in before
      requires sessions == before[id := WithClientOpen(before[id], true)]
      modifies this
      ensures Valid()
      ensures var d := Dispatch(before, commands, id, cmd, args, fx);
        sessions == d.sessions && response == d.response && trace == old(trace) + d.effects
    {
      WithClientOpenKeepsValid(before, id, true);
      var name := Lower(cmd);
      if name !in commands {
        return Response(HTTP_BAD_REQUEST, Error(InvalidCommandMessage(cmd)));
      }
      if args.None? {
        return Response(HTTP_BAD_REQUEST, CommandFailed(MSG_ARGS_NOT_ITERABLE, cmd, args));
      }
      trace := trace + [SendCommand(name, args.value)];
      WithClientOpenKeepsValid(before, id, fx.openAfter);
      sessions := before[id := WithClientOpen(before[id], fx.openAfter)];
      match fx.call {
        case Err(m) =>
          response := Response(HTTP_BAD_REQUEST, CommandFailed(m, cmd, args));
        case Ok(r) =>
          response := Response(HTTP_OK, CommandResult(r));
      }
    }

    method EndSession(id: SessionId, fx: EndEffects) returns (response: Response)
      requires Valid()
      modifies this
      ensures Valid()
      ensures var t := EndStep(old(sessions), id, fx);
        sessions == t.sessions && response == t.response && trace == old(trace) + t.effects
    {
      EndKeepsValid(sessions, id, fx);
      if id !in sessions {
        return Response(HTTP_NOT_FOUND, Error(MSG_NOT_FOUND));
      }
      var session := sessions[id];
      trace := trace + [QuitClient(session.client.url)];
      if fx.quit.Failed? {
        return Response(HTTP_SERVER_ERROR, Error(MSG_END_FAILED));
      }
      var closed := session.(client := session.client.(isOpen := false));
      sessions := sessions[id := closed];
      assert sessions == old(sessions)[id := WithClientOpen(session, false)];
      trace := trace + [StopContainer(session.container.name)];
      if fx.stop.Failed? {
        return Response(HTTP_SERVER_ERROR, Error(MSG_END_FAILED));
      }
      trace := trace + [RemoveContainer(session.container.name)];
      if fx.remove.Failed? {
        return Response(HTTP_SERVER_ERROR, Error(MSG_END_FAILED));
      }
      sessions := sessions - {id};
      assert sessions == old(sessions) - {id};
      response := Response(HTTP_OK, Ended(MSG_ENDED));
    }
  }
}
