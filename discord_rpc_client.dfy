/** `DiscordRPCClient`: the `isConnected` flag and the pipe, the handshake of
    `connect`, the gating of `sendMessage` and `disconnect`, the private
    `close`, the command envelopes, and the background reader with its event
    dispatch. The reader thread is modelled sequentially: it consumes a list
    of `read()` outcomes, and the calls it makes on the `EventListener` are
    appended to an event log. */
module DiscordRPCClient {
  import opened Wrappers
  import opened Json
  import opened DiscordPacket
  import opened Exceptions
  import opened Pipe
  import UnixPipe
  import WindowsPipe

  /** A call of the client on its `EventListener`. `User` and `ErrorEvent`
      are kept as the JSON members Gson maps onto their fields. */
  datatype Event =
    | OnReady(user: Option<Members>)
    | OnError(exception: Option<IOException>, event: Option<Members>)
    | OnClose
    | OnActivityJoin(secret: string)
    | OnActivitySpectate(secret: string)
    | OnActivityJoinRequest(user: Option<Members>)

  /** Unchecked exceptions of the dispatch code. */
  datatype DispatchFault =
    | NullJson            // json.get on a packet whose object is null
    | DataNotObject       // json.get("data").getAsJsonObject() on an absent or non-object member
    | EvtNotString        // evtJson.getAsString() on an object or an array
    | SecretNotString     // data.get("secret").getAsString() on an absent or non-primitive member
    | UserNotObject       // GSON.fromJson(data.get("user"), User.class) on a primitive or an array

  /** What the reader does with an incoming message. */
  datatype Reaction = Notify(event: Event) | Ignore | Crash(fault: DispatchFault)

  /** `GSON.fromJson(element, User.class)`: `null` for an absent or JSON
      `null` element, the user's members for an object; Gson throws for
      anything else. */
  function UserOf(element: Option<Json>): (r: Result<Option<Members>, DispatchFault>)
  {
    match element
    case None => Ok(None)
    case Some(JNull) => Ok(None)
    case Some(JObject(ms)) => Ok(Some(ms))
    case Some(_) => Err(UserNotObject)
  }

  /** `data.get("secret").getAsString()` */
  function SecretOf(data: Members): (r: Result<string, DispatchFault>)
  {
    match Get(data, "secret")
    case None => Err(SecretNotString)
    case Some(j) => if AsString(j).Some? then Ok(AsString(j).value) else Err(SecretNotString)
  }

  /** The event names the reader knows. */
  const KNOWN_EVENTS: seq<string> := ["READY", "ERROR", "ACTIVITY_JOIN", "ACTIVITY_SPECTATE", "ACTIVITY_JOIN_REQUEST"]

  /** The `switch` on the event name, with the message's `data` object. */
  function OnEvent(name: string, data: Members): (r: Reaction)
  {
    if name == "READY" then
      match UserOf(Get(data, "user"))
      case Ok(user) => Notify(OnReady(user))
      case Err(f) => Crash(f)
    else if name == "ERROR" then Notify(OnError(None, Some(data)))
    else if name == "ACTIVITY_JOIN" then
      match SecretOf(data)
      case Ok(secret) => Notify(OnActivityJoin(secret))
      case Err(f) => Crash(f)
    else if name == "ACTIVITY_SPECTATE" then
      match SecretOf(data)
      case Ok(secret) => Notify(OnActivitySpectate(secret))
      case Err(f) => Crash(f)
    else if name == "ACTIVITY_JOIN_REQUEST" then
      match UserOf(Get(data, "user"))
      case Ok(user) => Notify(OnActivityJoinRequest(user))
      case Err(f) => Crash(f)
    else Ignore
  }

  /** The body of the read loop for a non-CLOSE packet: a non-null `evt`
      makes it take `data` as an object, and then, when a listener is set,
      switch on the event name. */
  function Dispatch(json: Option<Members>, hasListeners: bool): (r: Reaction)
    ensures json.None? ==> r == Crash(NullJson)
    ensures r.Notify? ==>
      && hasListeners && json.Some?
      && Get(json.value, "evt").Some? && Get(json.value, "data").Some? && Get(json.value, "data").value.JObject?
  {
    if json.None? then Crash(NullJson)
    else
      match Get(json.value, "evt")
      case None => Ignore
      case Some(JNull) => Ignore
      case Some(evt) =>
        match Get(json.value, "data")
        case Some(JObject(data)) =>
          if !hasListeners then Ignore
          else if AsString(evt).None? then Crash(EvtNotString)
          else OnEvent(AsString(evt).value, data)
        case _ => Crash(DataNotObject)
  }

  /** Each known event name triggers exactly its listener call. */
  lemma DispatchKnownEvents(json: Members, name: string, data: Members)
    requires Get(json, "evt") == Some(JString(name)) && Get(json, "data") == Some(JObject(data))
    ensures name == "READY" && UserOf(Get(data, "user")).Ok? ==>
      Dispatch(Some(json), true) == Notify(OnReady(UserOf(Get(data, "user")).value))
    ensures name == "ERROR" ==> Dispatch(Some(json), true) == Notify(OnError(None, Some(data)))
    ensures name == "ACTIVITY_JOIN" && SecretOf(data).Ok? ==>
      Dispatch(Some(json), true) == Notify(OnActivityJoin(SecretOf(data).value))
    ensures name == "ACTIVITY_SPECTATE" && SecretOf(data).Ok? ==>
      Dispatch(Some(json), true) == Notify(OnActivitySpectate(SecretOf(data).value))
    ensures name == "ACTIVITY_JOIN_REQUEST" && UserOf(Get(data, "user")).Ok? ==>
      Dispatch(Some(json), true) == Notify(OnActivityJoinRequest(UserOf(Get(data, "user")).value))
  {
  }

  /** No listener call for an absent or `null` event, an unknown event name,
      or an absent listener; the only failures are those of the `data`,
      `user` and `secret` accesses. */
  lemma DispatchSilentCases(json: Members, hasListeners: bool)
    ensures (Get(json, "evt") == None || Get(json, "evt") == Some(JNull)) ==> Dispatch(Some(json), hasListeners) == Ignore
    ensures !hasListeners ==> !Dispatch(Some(json), hasListeners).Notify?
    ensures forall name ::
              (Get(json, "evt") == Some(JString(name)) && name !in KNOWN_EVENTS
               && Get(json, "data").Some? && Get(json, "data").value.JObject?)
              ==> Dispatch(Some(json), hasListeners) == Ignore
  {
  }

  /** A non-null `evt` without an object `data` is an unchecked exception,
      whatever the event name and whether or not a listener is set. */
  lemma DispatchNeedsData(json: Members, hasListeners: bool)
    requires Get(json, "evt").Some? && Get(json, "evt") != Some(JNull)
    requires Get(json, "data").None? || !Get(json, "data").value.JObject?
    ensures Dispatch(Some(json), hasListeners) == Crash(DataNotObject)
  {
  }

  /** The dispatch of the client's reader, with or without a listener. */
  function Router(hasListeners: bool): (r: Option<Members> -> Reaction)
  {
    json => Dispatch(json, hasListeners)
  }

  /** The state the reader works on: `isConnected`, whether the pipe is
      open, and the listener calls made so far. */
  datatype Session = Session(connected: bool, pipeOpen: bool, events: seq<Event>)

  /** Why the reader thread ended. */
  datatype Death =
    | ReadFault(fault: RuntimeFault)
    | DispatchFailed(dispatchFault: DispatchFault)
    | CloseThrew(exception: DiscordException)

  /** How the reader ends: still waiting for data, the loop left, or the
      thread killed by an uncaught exception. */
  datatype Exit = Waiting | Stopped | Died(death: Death)

  /** The state after the private `close()` and what it throws. */
  datatype Closing = Closing(session: Session, thrown: Option<DiscordException>)

  /** The private `close()`: clears `isConnected`, closes the pipe, and calls
      `onClose` when a listener is set; a failing pipe close throws a
      `DiscordException` instead of calling `onClose`. */
  function CloseEffect(s: Session, hasListeners: bool, fault: Option<IOException>): (r: Closing)
  {
    var closed := s.(connected := false, pipeOpen := false);
    if fault.Some? then Closing(closed, Some(PipeCloseFailed(fault.value)))
    else Closing(closed.(events := s.events + if hasListeners then [OnClose] else []), None)
  }

  /** The end of one pass of the read loop: back to the loop condition, or
      out of the loop (by `break` or an uncaught exception). */
  datatype Pass = Continue(session: Session) | Leave(session: Session, exit: Exit)

  /** Leaving the loop after `close()`: the thread dies if it threw. */
  function AfterClose(c: Closing): (r: Exit)
  {
    if c.thrown.Some? then Died(CloseThrew(c.thrown.value)) else Stopped
  }

  /** One pass of the read loop on one `read()` outcome, with `react` for
      the dispatch of a message that is not CLOSE. */
  function Step(s: Session, outcome: ReadOutcome, hasListeners: bool, react: Option<Members> -> Reaction,
                closeFault: Option<IOException>): (r: Pass)
    ensures r.session.connected ==> s.connected
    ensures Live(s) ==> Live(r.session)
  {
    match outcome
    case NoPacket => Leave(s, Stopped)
    case Received(packet) =>
      if packet.opCode == CLOSE then
        var c := CloseEffect(s, hasListeners, closeFault);
        Leave(c.session, AfterClose(c))
      else
        (match react(packet.json)
         case Notify(event) => Continue(s.(events := s.events + [event]))
         case Ignore => Continue(s)
         case Crash(f) => Leave(s, Died(DispatchFailed(f))))
    case Threw(Io(e)) =>
      var reported := s.(events := s.events + if hasListeners then [OnError(Some(e), None)] else []);
      var c := CloseEffect(reported, hasListeners, closeFault);
      if c.thrown.Some? then Leave(c.session, AfterClose(c)) else Continue(c.session)
    case Threw(_) => Leave(s.(connected := false), Stopped)
    case Unchecked(f) => Leave(s, Died(ReadFault(f)))
  }

  /** Where the read loop ends: the final state, how many outcomes it
      consumed, and how it ended. */
  datatype Ending = Ending(session: Session, consumed: nat, exit: Exit)

  /** `n` more passes before those of `e`. */
  function Later(e: Ending, n: nat): (r: Ending)
  {
    e.(consumed := e.consumed + n)
  }

  /** The read loop `while (isConnected)` over a list of `read()` outcomes.
      The pipe close, if the loop makes one, fails with `closeFault`. */
  function Run(s: Session, outcomes: seq<ReadOutcome>, hasListeners: bool, react: Option<Members> -> Reaction,
               closeFault: Option<IOException>): (r: Ending)
    ensures r.session.connected ==> s.connected
    decreases |outcomes|
  {
    if !s.connected then Ending(s, 0, Stopped)
    else if outcomes == [] then Ending(s, 0, Waiting)
    else
      match Step(s, outcomes[0], hasListeners, react, closeFault)
      case Leave(next, exit) => Ending(next, 1, exit)
      case Continue(next) => Later(Run(next, outcomes[1..], hasListeners, react, closeFault), 1)
  }

  /** A pass only ever appends to the event log. */
  lemma StepAppendsEvents(s: Session, o: ReadOutcome, hasListeners: bool, react: Option<Members> -> Reaction,
                          closeFault: Option<IOException>)
    ensures var next := Step(s, o, hasListeners, react, closeFault).session;
      |s.events| <= |next.events| && next.events[..|s.events|] == s.events
  {
  }

  /** The reader only ever appends to the event log, consumes no more
      outcomes than it is given, and waits only when connected and out of
      outcomes. */
  lemma {:induction false} RunAppendsEvents(s: Session, outcomes: seq<ReadOutcome>, hasListeners: bool,
                                             react: Option<Members> -> Reaction, closeFault: Option<IOException>)
    ensures var e := Run(s, outcomes, hasListeners, react, closeFault);
      && e.consumed <= |outcomes|
      && |s.events| <= |e.session.events| && e.session.events[..|s.events|] == s.events
      && (e.exit == Waiting ==> e.consumed == |outcomes| && e.session.connected)
    decreases |outcomes|
  {
    if s.connected && outcomes != [] {
      var p := Step(s, outcomes[0], hasListeners, react, closeFault);
      StepAppendsEvents(s, outcomes[0], hasListeners, react, closeFault);
      if p.Continue? {
        RunAppendsEvents(p.session, outcomes[1..], hasListeners, react, closeFault);
        var e := Run(p.session, outcomes[1..], hasListeners, react, closeFault);
        assert e.session.events[..|p.session.events|][..|s.events|] == e.session.events[..|s.events|];
      }
    }
  }

  /** The connection flag is only set over an open pipe. */
  predicate Live(s: Session)
  {
    s.connected ==> s.pipeOpen
  }

  /** The reader never leaves the flag set over a closed pipe: every path
      that closes the pipe clears the flag first. */
  lemma {:induction false} RunKeepsLive(s: Session, outcomes: seq<ReadOutcome>, hasListeners: bool,
                                         react: Option<Members> -> Reaction, closeFault: Option<IOException>)
    requires Live(s)
    ensures Live(Run(s, outcomes, hasListeners, react, closeFault).session)
    decreases |outcomes|
  {
    if s.connected && outcomes != [] {
      var p := Step(s, outcomes[0], hasListeners, react, closeFault);
      assert Live(p.session);
      if p.Continue? {
        RunKeepsLive(p.session, outcomes[1..], hasListeners, react, closeFault);
      }
    }
  }

  /** Messages that reach the dispatch without failing. */
  predicate Deliverable(o: ReadOutcome, react: Option<Members> -> Reaction)
  {
    o.Received? && o.packet.opCode != CLOSE && !react(o.packet.json).Crash?
  }

  /** The listener call a deliverable message makes, if any. */
  function Heard(o: ReadOutcome, react: Option<Members> -> Reaction): (r: seq<Event>)
    requires Deliverable(o, react)
  {
    var d := react(o.packet.json);
    if d.Notify? then [d.event] else []
  }

  /** A deliverable message makes its listener call and keeps the loop going. */
  lemma DeliverableStep(s: Session, o: ReadOutcome, hasListeners: bool, react: Option<Members> -> Reaction,
                        closeFault: Option<IOException>)
    requires Deliverable(o, react)
    ensures Step(s, o, hasListeners, react, closeFault) == Continue(s.(events := s.events + Heard(o, react)))
  {
    assert react(o.packet.json).Ignore? ==> s.events + [] == s.events;
  }

  /** Every outcome of the list is a deliverable message. */
  predicate AllDeliverable(outcomes: seq<ReadOutcome>, react: Option<Members> -> Reaction)
  {
    outcomes == [] || (Deliverable(outcomes[0], react) && AllDeliverable(outcomes[1..], react))
  }

  /** The listener calls a list of deliverable messages makes, in order. */
  function Notifications(outcomes: seq<ReadOutcome>, react: Option<Members> -> Reaction): (r: seq<Event>)
    requires AllDeliverable(outcomes, react)
  {
    if outcomes == [] then []
    else Heard(outcomes[0], react) + Notifications(outcomes[1..], react)
  }

  /** The first message's call comes before those of the rest. */
  lemma NotificationsSplit(events: seq<Event>, outcomes: seq<ReadOutcome>, react: Option<Members> -> Reaction)
    requires outcomes != [] && AllDeliverable(outcomes, react)
    ensures events + Notifications(outcomes, react)
         == (events + Heard(outcomes[0], react)) + Notifications(outcomes[1..], react)
  {
  }

  /** Run after its first pass: either that pass left the loop, or the rest
      of the outcomes run from the state it left. */
  lemma RunAfterStep(s: Session, outcomes: seq<ReadOutcome>, hasListeners: bool, react: Option<Members> -> Reaction,
                     closeFault: Option<IOException>)
    requires s.connected && outcomes != []
    ensures var p := Step(s, outcomes[0], hasListeners, react, closeFault);
      && (p.Leave? ==> Run(s, outcomes, hasListeners, react, closeFault) == Ending(p.session, 1, p.exit))
      && (p.Continue? ==>
            Run(s, outcomes, hasListeners, react, closeFault)
            == Later(Run(p.session, outcomes[1..], hasListeners, react, closeFault), 1))
  {
  }

  /** Messages are dispatched in the order they arrive, each making its own
      listener call or none, and the reader then waits for more. */
  lemma {:induction false} RunDispatchesInOrder(s: Session, outcomes: seq<ReadOutcome>, hasListeners: bool,
                                                 react: Option<Members> -> Reaction, closeFault: Option<IOException>)
    requires s.connected
    requires AllDeliverable(outcomes, react)
    ensures Run(s, outcomes, hasListeners, react, closeFault)
         == Ending(s.(events := s.events + Notifications(outcomes, react)), |outcomes|, Waiting)
    decreases |outcomes|
  {
    if outcomes != [] {
      var next := s.(events := s.events + Heard(outcomes[0], react));
      DeliverableStep(s, outcomes[0], hasListeners, react, closeFault);
      RunAfterStep(s, outcomes, hasListeners, react, closeFault);
      RunDispatchesInOrder(next, outcomes[1..], hasListeners, react, closeFault);
      NotificationsSplit(s.events, outcomes, react);
    } else {
      assert s.events + [] == s.events;
    }
  }

  /** A `null` packet ends the loop with no listener call and leaves
      `isConnected` as it was. */
  lemma NullPacketStops(s: Session, rest: seq<ReadOutcome>, hasListeners: bool, react: Option<Members> -> Reaction,
                        closeFault: Option<IOException>)
    requires s.connected
    ensures Run(s, [NoPacket] + rest, hasListeners, react, closeFault) == Ending(s, 1, Stopped)
  {
  }

  /** A CLOSE packet closes the connection, calls `onClose` once when a
      listener is set, and ends the loop; a failing pipe close kills the
      thread instead of calling `onClose`. */
  lemma ClosePacketCloses(s: Session, json: Option<Members>, rest: seq<ReadOutcome>, hasListeners: bool,
                          react: Option<Members> -> Reaction, closeFault: Option<IOException>)
    requires s.connected
    ensures closeFault.None? ==>
      Run(s, [Received(Packet(CLOSE, json))] + rest, hasListeners, react, closeFault)
        == Ending(Session(false, false, s.events + if hasListeners then [OnClose] else []), 1, Stopped)
    ensures closeFault.Some? ==>
      Run(s, [Received(Packet(CLOSE, json))] + rest, hasListeners, react, closeFault)
        == Ending(Session(false, false, s.events), 1, Died(CloseThrew(PipeCloseFailed(closeFault.value))))
  {
  }

  /** `AsynchronousCloseException` and `BufferUnderflowException` clear
      `isConnected` and end the loop with no listener call. */
  lemma DisconnectIsSilent(s: Session, failure: ReadFailure, rest: seq<ReadOutcome>, hasListeners: bool,
                           react: Option<Members> -> Reaction, closeFault: Option<IOException>)
    requires s.connected && !failure.Io?
    ensures Run(s, [Threw(failure)] + rest, hasListeners, react, closeFault) == Ending(s.(connected := false), 1, Stopped)
  {
  }

  /** Any other `IOException` calls `onError` and then `close`, after which
      the loop condition fails. */
  lemma IoFailureReportsAndCloses(s: Session, e: IOException, rest: seq<ReadOutcome>, hasListeners: bool,
                                  react: Option<Members> -> Reaction)
    requires s.connected
    ensures Run(s, [Threw(Io(e))] + rest, hasListeners, react, None)
         == Ending(Session(false, false, s.events + if hasListeners then [OnError(Some(e), None), OnClose] else []),
                   1, Stopped)
  {
    var closed := Session(false, false, s.events + if hasListeners then [OnError(Some(e), None), OnClose] else []);
    if hasListeners {
      assert s.events + [OnError(Some(e), None)] + [OnClose] == closed.events;
    } else {
      assert s.events + [] + [] == closed.events;
    }
    assert Step(s, Threw(Io(e)), hasListeners, react, None) == Continue(closed);
    assert ([Threw(Io(e))] + rest)[0] == Threw(Io(e));
  }

  /** An unchecked exception out of `read()` ends the thread and leaves
      `isConnected` set. */
  lemma UncheckedKillsReader(s: Session, f: RuntimeFault, rest: seq<ReadOutcome>, hasListeners: bool,
                             react: Option<Members> -> Reaction, closeFault: Option<IOException>)
    requires s.connected
    ensures Run(s, [Unchecked(f)] + rest, hasListeners, react, closeFault) == Ending(s, 1, Died(ReadFault(f)))
  {
  }

  /** A READY message `{evt: "READY", data: {user: ...}}`. */
  function ReadyMessage(user: Members): (r: Members)
  {
    [("evt", JString("READY")), ("data", JObject([("user", JObject(user))]))]
  }

  /** The companion's READY message makes exactly one `onReady` with its
      user, and a following CLOSE packet disconnects with exactly one
      `onClose` and no `onError`; nothing after the CLOSE is read. */
  lemma ReadyThenClose(s: Session, user: Members, closing: Option<Members>, rest: seq<ReadOutcome>)
    requires s.connected
    ensures Run(s, [Received(Packet(MESSAGE, Some(ReadyMessage(user)))), Received(Packet(CLOSE, closing))] + rest,
                true, Router(true), None)
         == Ending(Session(false, false, s.events + [OnReady(Some(user)), OnClose]), 2, Stopped)
  {
    var outcomes := [Received(Packet(MESSAGE, Some(ReadyMessage(user)))), Received(Packet(CLOSE, closing))] + rest;
    var ready := s.(events := s.events + [OnReady(Some(user))]);
    assert Get(ReadyMessage(user), "evt") == Some(JString("READY"));
    assert Get(ReadyMessage(user), "data") == Some(JObject([("user", JObject(user))]));
    assert Dispatch(Some(ReadyMessage(user)), true) == Notify(OnReady(Some(user)));
    assert Step(s, outcomes[0], true, Router(true), None) == Continue(ready);
    assert outcomes[1..] == [Received(Packet(CLOSE, closing))] + rest;
    assert Run(ready, outcomes[1..], true, Router(true), None)
        == Ending(Session(false, false, ready.events + [OnClose]), 1, Stopped);
    assert ready.events + [OnClose] == s.events + [OnReady(Some(user)), OnClose];
  }

  /** The handshake object `{v: 1, client_id: appId}`. */
  function HandshakeCommand(appId: string): (r: Members)
  {
    [("v", JNumber(1)), ("client_id", JString(appId))]
  }

  /** The object of `sendPresence`: `{cmd: SET_ACTIVITY, args: {pid, activity}}`. */
  function SetActivityCommand(pid: int, activity: Json): (r: Members)
  {
    [("cmd", JString("SET_ACTIVITY")), ("args", JObject([("pid", JNumber(pid)), ("activity", activity)]))]
  }

  /** Gson's value for a possibly `null` string property. */
  function StringOrNull(s: Option<string>): (r: Json)
  {
    if s.Some? then JString(s.value) else JNull
  }

  /** The object of `respond`. */
  function RespondCommand(userId: Option<string>, accepted: bool): (r: Members)
  {
    [("cmd", JString(if accepted then "SEND_ACTIVITY_JOIN_INVITE" else "CLOSE_ACTIVITY_REQUEST")),
     ("user_id", StringOrNull(userId))]
  }

  /** `send` adds the nonce after the fields of each command, none of which
      is called "nonce". */
  lemma NonceComesLast(appId: string, pid: int, activity: Json, userId: Option<string>, accepted: bool,
                       nonce: string)
    ensures Put(HandshakeCommand(appId), "nonce", JString(nonce))
         == HandshakeCommand(appId) + [("nonce", JString(nonce))]
    ensures Put(SetActivityCommand(pid, activity), "nonce", JString(nonce))
         == SetActivityCommand(pid, activity) + [("nonce", JString(nonce))]
    ensures Put(RespondCommand(userId, accepted), "nonce", JString(nonce))
         == RespondCommand(userId, accepted) + [("nonce", JString(nonce))]
  {
    var n := [("nonce", JString(nonce))];
    var h := HandshakeCommand(appId);
    assert h[1..][1..] == [];
    assert Put(h[1..], "nonce", JString(nonce)) == h[1..] + n;
    var p := SetActivityCommand(pid, activity);
    assert p[1..][1..] == [];
    assert Put(p[1..], "nonce", JString(nonce)) == p[1..] + n;
    var r := RespondCommand(userId, accepted);
    assert r[1..][1..] == [];
    assert Put(r[1..], "nonce", JString(nonce)) == r[1..] + n;
  }

  /** The host the client runs on: what discovery sees of the environment,
      the file system and the endpoints. `opens` is `socket.connect` on Unix
      and `new RandomAccessFile(file, "rw")` on Windows. */
  datatype Host = Host(env: map<string, string>, socketOpens: bool,
                       fileExists: string -> bool, opens: string -> bool)

  /** No candidate of `candidates` can be used. */
  predicate NoneReachable(candidates: seq<string>, fileExists: string -> bool, opens: string -> bool)
  {
    forall i :: 0 <= i < |candidates| ==> !Reachable(candidates, fileExists, opens, i)
  }

  /** Where `connect`'s pipe constructor ends up on `host`: `WindowsPipe` on
      Windows and `UnixPipe` elsewhere. It fails, always with
      `NoDiscordException`, exactly when the Unix socket does not open or no
      candidate of the platform can be used. */
  function Discover(isWindows: bool, host: Host): (r: Result<Endpoint, DiscordException>)
    ensures r.Err? <==>
      if isWindows then NoneReachable(WindowsPipe.Candidates(), host.fileExists, host.opens)
      else !host.socketOpens || NoneReachable(UnixPipe.Candidates(UnixPipe.Directory(host.env)), host.fileExists, host.opens)
    ensures r.Err? ==> r.error.NoDiscord?
    ensures r.Ok? ==> if isWindows then r.value.NamedPipe? else r.value.UnixSocket?
  {
    if isWindows then WindowsPipe.Discover(host.fileExists, host.opens)
    else UnixPipe.Discover(host.env, host.socketOpens, host.fileExists, host.opens)
  }

  class Client {
    /** `System.getProperty("os.name")` contains "win". */
    const isWindows: bool
    const appId: string
    /** `json.toString().getBytes(UTF_8)`, Gson's serialisation. */
    const serialize: Members -> JsonText
    var pipe: Pipe?
    var isConnected: bool
    /** `listeners != null` */
    var hasListeners: bool
    /** The calls made on the listener, in order. */
    var events: seq<Event>

    /** A connected client has a pipe, and that pipe is open: the flag is
        never set over a closed transport. */
    ghost predicate Valid()
      reads this, pipe
    {
      isConnected ==> pipe != null && pipe.open
    }

    function State(): Session
      reads this, pipe
      requires pipe != null
    {
      Session(isConnected, pipe.open, events)
    }

    constructor (hasListeners: bool, appId: string, isWindows: bool, serialize: Members -> JsonText)
      ensures Valid() && !isConnected && pipe == null && events == []
      ensures this.hasListeners == hasListeners && this.appId == appId
      ensures this.isWindows == isWindows && this.serialize == serialize
    {
      this.hasListeners := hasListeners;
      this.appId := appId;
      this.isWindows := isWindows;
      this.serialize := serialize;
      pipe := null;
      isConnected := false;
      events := [];
    }

    /** The private `close()`. */
    method Close(fault: Option<IOException>) returns (thrown: Option<DiscordException>)
      requires pipe != null
      modifies this, pipe
      ensures pipe == old(pipe) && pipe.writes == old(pipe.writes) && hasListeners == old(hasListeners)
      ensures CloseEffect(old(State()), hasListeners, fault) == Closing(State(), thrown)
    {
      ghost var before := State();
      isConnected := false;
      thrown := None;
      var closeFailure := pipe.Close(fault);
      assert State() == before.(connected := false, pipeOpen := false);
      if closeFailure.Some? {
        return Some(PipeCloseFailed(closeFailure.value));
      }
      if hasListeners {
        events := events + [OnClose];
      }
      assert State() == before.(connected := false, pipeOpen := false, events := before.events + if hasListeners then [OnClose] else []);
      assert CloseEffect(before, hasListeners, fault) == Closing(State(), None);
    }

    /** `sendMessage`: throws `NotConnectedException` and writes nothing when
        not connected; otherwise sends a MESSAGE frame, and a write
        `IOException` calls `onError(e, null)` without touching
        `isConnected`. */
    method SendMessage(message: JsonObject, nonce: string, writeFault: Option<IOException>)
      returns (thrown: Option<DiscordException>)
      requires Valid()
      modifies this, pipe, message
      ensures Valid() && pipe == old(pipe) && isConnected == old(isConnected) && hasListeners == old(hasListeners)
      ensures !old(isConnected) ==>
        && thrown == Some(NotConnected("Tried to send message"))
        && message.members == old(message.members) && events == old(events)
        && (pipe != null ==> pipe.writes == old(pipe.writes) && pipe.open == old(pipe.open))
      ensures old(isConnected) ==>
        && thrown == None
        && message.members == Put(old(message.members), "nonce", JString(nonce))
        && pipe.writes == old(pipe.writes) + [Frame(MESSAGE, serialize(message.members))]
        && pipe.open == old(pipe.open)
        && events == old(events) + if writeFault.Some? && hasListeners then [OnError(writeFault, None)] else []
    {
      if !isConnected {
        return Some(NotConnected("Tried to send message"));
      }
      thrown := None;
      var failure := pipe.Send(MESSAGE, message, nonce, serialize, writeFault);
      if failure.Some? && hasListeners {
        events := events + [OnError(failure, None)];
      }
    }

    /** The pipe constructor `connect` calls: `WindowsPipe` on Windows and
        `UnixPipe` elsewhere. */
    method OpenPipe(host: Host) returns (r: Result<Pipe, DiscordException>)
      ensures r.Err? ==> Discover(isWindows, host) == Err(r.error)
      ensures r.Ok? ==>
        && Discover(isWindows, host) == Ok(r.value.endpoint)
        && fresh(r.value) && r.value.open && r.value.writes == []
    {
      if isWindows {
        r := WindowsPipe.Open(host.fileExists, host.opens);
      } else {
        r := UnixPipe.Open(host.env, host.socketOpens, host.fileExists, host.opens);
      }
    }

    /** The handshake of `connect` on a freshly opened pipe. */
    method Handshake(nonce: string, writeFault: Option<IOException>, closeFault: Option<IOException>)
      returns (thrown: Option<DiscordException>)
      requires pipe != null && pipe.open
      modifies this, pipe
      ensures pipe == old(pipe) && hasListeners == old(hasListeners)
      ensures pipe.writes == old(pipe.writes)
        + [Frame(HANDSHAKE, serialize(Put(HandshakeCommand(appId), "nonce", JString(nonce))))]
      ensures writeFault.None? ==> thrown == None && isConnected && pipe.open && events == old(events)
      ensures writeFault.Some? ==>
        && !isConnected && !pipe.open
        && thrown == (if closeFault.Some? then Some(PipeCloseFailed(closeFault.value)) else None)
        && events == old(events) + (if hasListeners then [OnError(writeFault, None)] else [])
                                 + (if hasListeners && closeFault.None? then [OnClose] else [])
    {
      var output := new JsonObject();
      output.AddProperty("v", JNumber(1));
      output.AddProperty("client_id", JString(appId));
      assert output.members == HandshakeCommand(appId);
      var failure := pipe.Send(HANDSHAKE, output, nonce, serialize, writeFault);
      if failure.None? {
        isConnected := true;
        return None;
      }
      if hasListeners {
        events := events + [OnError(failure, None)];
      }
      thrown := Close(closeFault);
    }

    /** `connect`: opens the platform's pipe (its `NoDiscordException`
        propagates and changes nothing), sends the HANDSHAKE frame, and sets
        `isConnected`; the reader it starts is `RunReader`. A handshake
        `IOException` calls `onError` and then `close`. */
    method Connect(host: Host, nonce: string, writeFault: Option<IOException>, closeFault: Option<IOException>)
      returns (thrown: Option<DiscordException>)
      modifies this
      ensures hasListeners == old(hasListeners)
      ensures old(Valid()) ==> Valid()
      ensures Discover(isWindows, host).Err? ==>
        && thrown == Some(Discover(isWindows, host).error)
        && pipe == old(pipe) && isConnected == old(isConnected) && events == old(events)
      ensures Discover(isWindows, host).Ok? ==>
        && pipe != null && fresh(pipe)
        && pipe.endpoint == Discover(isWindows, host).value
        && pipe.writes == [Frame(HANDSHAKE, serialize(Put(HandshakeCommand(appId), "nonce", JString(nonce))))]
      ensures Discover(isWindows, host).Ok? && writeFault.None? ==>
        && thrown == None && isConnected && pipe.open && events == old(events)
      ensures Discover(isWindows, host).Ok? && writeFault.Some? ==>
        && !isConnected && !pipe.open
        && thrown == (if closeFault.Some? then Some(PipeCloseFailed(closeFault.value)) else None)
        && events == old(events) + (if hasListeners then [OnError(writeFault, None)] else [])
                                 + (if hasListeners && closeFault.None? then [OnClose] else [])
    {
      var found := OpenPipe(host);
      if found.Err? {
        return Some(found.error);
      }
      pipe := found.value;
      thrown := Handshake(nonce, writeFault, closeFault);
    }

    /** `sendPresence`: a SET_ACTIVITY command with the process id and the
        presence Gson makes of it (`activity`). */
    method SendPresence(activity: Json, pid: int, nonce: string, writeFault: Option<IOException>)
      returns (thrown: Option<DiscordException>)
      requires Valid()
      modifies this, pipe
      ensures Valid() && pipe == old(pipe) && isConnected == old(isConnected) && hasListeners == old(hasListeners)
      ensures !old(isConnected) ==>
        && thrown == Some(NotConnected("Tried to send message")) && events == old(events)
        && (pipe != null ==> pipe.writes == old(pipe.writes) && pipe.open == old(pipe.open))
      ensures old(isConnected) ==>
        && thrown == None
        && pipe.writes == old(pipe.writes)
             + [Frame(MESSAGE, serialize(Put(SetActivityCommand(pid, activity), "nonce", JString(nonce))))]
        && events == old(events) + if writeFault.Some? && hasListeners then [OnError(writeFault, None)] else []
    {
      var output := new JsonObject();
      output.AddProperty("cmd", JString("SET_ACTIVITY"));
      var args := new JsonObject();
      args.AddProperty("pid", JNumber(pid));
      assert args.members == [("pid", JNumber(pid))];
      args.AddProperty("activity", activity);
      assert args.members == [("pid", JNumber(pid)), ("activity", activity)];
      output.AddProperty("args", JObject(args.members));
      assert output.members == SetActivityCommand(pid, activity);
      thrown := SendMessage(output, nonce, writeFault);
    }

    /** `respond`: SEND_ACTIVITY_JOIN_INVITE when accepted and
        CLOSE_ACTIVITY_REQUEST otherwise, with the user id. */
    method Respond(userId: Option<string>, accepted: bool, nonce: string, writeFault: Option<IOException>)
      returns (thrown: Option<DiscordException>)
      requires Valid()
      modifies this, pipe
      ensures Valid() && pipe == old(pipe) && isConnected == old(isConnected) && hasListeners == old(hasListeners)
      ensures !old(isConnected) ==>
        && thrown == Some(NotConnected("Tried to send message")) && events == old(events)
        && (pipe != null ==> pipe.writes == old(pipe.writes) && pipe.open == old(pipe.open))
      ensures old(isConnected) ==>
        && thrown == None
        && pipe.writes == old(pipe.writes)
             + [Frame(MESSAGE, serialize(Put(RespondCommand(userId, accepted), "nonce", JString(nonce))))]
        && events == old(events) + if writeFault.Some? && hasListeners then [OnError(writeFault, None)] else []
    {
      var output := new JsonObject();
      output.AddProperty("cmd", JString(if accepted then "SEND_ACTIVITY_JOIN_INVITE" else "CLOSE_ACTIVITY_REQUEST"));
      output.AddProperty("user_id", StringOrNull(userId));
      assert output.members == RespondCommand(userId, accepted);
      thrown := SendMessage(output, nonce, writeFault);
    }

    /** `disconnect`: throws `NotConnectedException` when not connected, and
        otherwise is `close`. */
    method Disconnect(closeFault: Option<IOException>) returns (thrown: Option<DiscordException>)
      requires Valid()
      modifies this, pipe
      ensures pipe == old(pipe) && hasListeners == old(hasListeners) && Valid()
      ensures !old(isConnected) ==>
        && thrown == Some(NotConnected("Tried to disconnect"))
        && isConnected == old(isConnected) && events == old(events)
        && (pipe != null ==> pipe.writes == old(pipe.writes) && pipe.open == old(pipe.open))
      ensures old(isConnected) ==>
        && pipe.writes == old(pipe.writes)
        && CloseEffect(old(State()), hasListeners, closeFault) == Closing(State(), thrown)
    {
      if !isConnected {
        return Some(NotConnected("Tried to disconnect"));
      }
      thrown := Close(closeFault);
    }

    /** One pass of the read loop, with `react` for the dispatch of a
        message. */
    method ReadStep(outcome: ReadOutcome, react: Option<Members> -> Reaction, closeFault: Option<IOException>)
      returns (stop: Option<Exit>)
      requires pipe != null
      modifies this, pipe
      ensures pipe == old(pipe) && pipe.writes == old(pipe.writes) && hasListeners == old(hasListeners)
      ensures old(Valid()) ==> Valid()
      ensures Step(old(State()), outcome, hasListeners, react, closeFault)
           == if stop.Some? then Leave(State(), stop.value) else Continue(State())
    {
      ghost var s0 := State();
      match outcome {
        case NoPacket =>
          stop := Some(Stopped);
        case Received(packet) =>
          if packet.opCode == CLOSE {
            var thrown := Close(closeFault);
            stop := Some(if thrown.Some? then Died(CloseThrew(thrown.value)) else Stopped);
          } else {
            match react(packet.json) {
              case Notify(event) =>
                events := events + [event];
                stop := None;
              case Ignore =>
                stop := None;
              case Crash(f) =>
                stop := Some(Died(DispatchFailed(f)));
            }
          }
        case Threw(failure) =>
          if failure.Io? {
            if hasListeners {
              events := events + [OnError(Some(failure.e), None)];
            }
            assert State() == s0.(events := s0.events + if hasListeners then [OnError(Some(failure.e), None)] else []);
            var thrown := Close(closeFault);
            stop := if thrown.Some? then Some(Died(CloseThrew(thrown.value))) else None;
          } else {
            isConnected := false;
            stop := Some(Stopped);
          }
        case Unchecked(f) =>
          stop := Some(Died(ReadFault(f)));
      }
    }

    /** The read loop `while (isConnected)` over the outcomes of successive
        `read()` calls, with `react` for the dispatch of a message. */
    method RunReader(outcomes: seq<ReadOutcome>, react: Option<Members> -> Reaction, closeFault: Option<IOException>)
      returns (processed: nat, exit: Exit)
      requires pipe != null
      modifies this, pipe
      ensures pipe == old(pipe) && pipe.writes == old(pipe.writes) && hasListeners == old(hasListeners)
      ensures old(Valid()) ==> Valid()
      ensures Run(old(State()), outcomes, hasListeners, react, closeFault) == Ending(State(), processed, exit)
    {
      ghost var goal := Run(State(), outcomes, hasListeners, react, closeFault);
      processed := 0;
      var stop: Option<Exit> := None;
      while stop.None? && isConnected && processed < |outcomes|
        invariant processed <= |outcomes|
        invariant pipe == old(pipe) && pipe.writes == old(pipe.writes) && hasListeners == old(hasListeners)
        invariant stop.None? ==> goal == Later(Run(State(), outcomes[processed..], hasListeners, react, closeFault), processed)
        invariant stop.Some? ==> goal == Ending(State(), processed, stop.value)
        invariant old(Valid()) ==> Valid()
      {
        ghost var before := State();
        ghost var rest := outcomes[processed..];
        assert rest[1..] == outcomes[processed + 1..];
        stop := ReadStep(outcomes[processed], react, closeFault);
        RunAfterStep(before, rest, hasListeners, react, closeFault);
        processed := processed + 1;
      }
      exit := if stop.Some? then stop.value else if !isConnected then Stopped else Waiting;
    }

    /** The reader thread `connect` starts: the read loop with the event
        dispatch of `Dispatch`. */
    method ReaderThread(outcomes: seq<ReadOutcome>, closeFault: Option<IOException>)
      returns (processed: nat, exit: Exit)
      requires pipe != null
      modifies this, pipe
      ensures pipe == old(pipe) && pipe.writes == old(pipe.writes) && hasListeners == old(hasListeners)
      ensures old(Valid()) ==> Valid()
      ensures Run(old(State()), outcomes, hasListeners, Router(hasListeners), closeFault) == Ending(State(), processed, exit)
    {
      processed, exit := RunReader(outcomes, Router(hasListeners), closeFault);
    }
  }
}
