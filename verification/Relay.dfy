/**
 * The relay (ts/infinity-bridge-relay/src/relay.ts) as a value and a function per handler.
 *
 * A handler runs to completion, so each function maps the state before a handler to the state
 * after it. Besides the relay's own fields the state holds the part of the browser the relay acts
 * on: live timers, the ready state of every socket it created, attached CommBus listeners, and in
 * `out` the foreign calls of the current handler.
 */
module Relay {
  import opened Base
  import opened Json
  import opened Wire
  import opened RequestIds
  import D = Dedup

  type SocketId = nat
  type TimerId = nat

  datatype ReadyState = Connecting | Open | Closing | Closed

  datatype TimerKind =
    | RequestTimeout(requestId: string, cmdId: string)
    | BindRetry
    | Reconnect

  datatype Timer = Timer(kind: TimerKind, due: nat)

  /** A pending request; the source's two closures capture only the command id. */
  datatype Pending = Pending(cmdId: string, timerId: TimerId)

  datatype Config = Config(
    client: Option<string>,
    aircraft: Option<string>,
    tail: Option<string>,
    session: Option<string>,
    meta: Option<Json>,
    protocolVersion: int,
    requestTimeoutMs: nat,
    bindRetryMs: nat,
    reconnectMs: nat)

  /** Why a frame is sent; kept for stating properties, not visible to the host. */
  datatype Cause = Settles(requestId: string) | Duplicate | Ready | Greeting | Keepalive | Forwards

  datatype Out =
    | Send(via: Option<SocketId>, frame: Json, cause: Cause)  // via nothing: no open socket, dropped
    | Call(envelope: Json)

  datatype State = State(
    cfg: Config,
    commBus: bool,
    commBusBound: bool,
    bindRetryTimerId: Option<TimerId>,
    ws: Option<SocketId>,
    wsRetryTimerId: Option<TimerId>,
    pending: map<string, Pending>,
    requestSeq: nat,
    dedup: D.Ring<string>,
    // the browser
    listeners: nat,
    timers: map<TimerId, Timer>,
    nextTimer: TimerId,
    sockets: seq<ReadyState>,
    now: nat,
    out: seq<Out>)

  function Fresh(cfg: Config, capacity: nat): State {
    State(cfg, false, false, None, None, None, map[], 0, D.Ring([], capacity),
          0, map[], 0, [], 0, [])
  }

  // ---- Frames ----

  const TIMED_OUT := "WASM_TIMEOUT: no response from WASM gauge"
  const NOT_BOUND := "COMMBUS_NOT_BOUND: response listener never attached — no WASM module is reachable"
  const NOT_READY := "COMMBUS_NOT_READY: CommBus not initialized"
  const WASM_ERROR := "[msfs-bridge] WASM returned error"
  const DESTROYED := "[msfs-bridge] Relay destroyed"

  function AckOk(cmdId: string, response: Option<Json>): Json {
    Print(Ack(AckPayload(cmdId, true, None, response, None)))
  }

  function AckErr(cmdId: string, error: string): Json {
    Print(Ack(AckPayload(cmdId, false, Some(error), None, None)))
  }

  function AckDuplicate(cmdId: string): Json {
    Print(Ack(AckPayload(cmdId, true, None, Some(Null), Some(true))))
  }

  function HelloFrame(cfg: Config, clock: int): Json {
    Obj(map["t" := Str("hello"),
            "client" := Str(cfg.client.GetOr("msfs-gauge")),
            "session" := Str(cfg.session.GetOr(Decimal(clock))),
            "v" := Int(cfg.protocolVersion)]
        + Opt("aircraft", OptStr(cfg.aircraft)) + Opt("tail", OptStr(cfg.tail)) + Opt("meta", cfg.meta))
  }

  function PongFrame(clock: int): Json {
    Obj(map["t" := Str("pong"), "ts" := Int(clock)])
  }

  function Envelope(requestId: string, payload: Json): Json {
    Obj(map["requestId" := Str(requestId), "payload" := payload])
  }

  /** How a JSON value reads as an error message. */
  function Text(j: Json): string {
    match j
    case Null => "null"
    case Bool(b) => if b then "true" else "false"
    case Int(n) => Decimal(n)
    case Frac(t) => t
    case Str(s) => s
    case Arr(items) => Join(items)
    case Obj(_) => "[object Object]"
  }

  function Join(items: seq<Json>): string {
    if items == [] then ""
    else
      var head := if items[0].Null? then "" else Text(items[0]);
      if |items| == 1 then head else head + "," + Join(items[1..])
  }

  function ErrorText(msg: Json): string {
    match msg.Get("error")
    case None => WASM_ERROR
    case Some(Null) => WASM_ERROR
    case Some(e) => Text(e)
  }

  // ---- Browser ----

  predicate IsOpen(s: State, k: SocketId) {
    k < |s.sockets| && s.sockets[k] == Open
  }

  predicate Live(s: State, t: TimerId, kind: TimerKind) {
    t in s.timers && s.timers[t].kind == kind
  }

  function SetTimeout(s: State, kind: TimerKind, delay: nat): State {
    s.(timers := s.timers[s.nextTimer := Timer(kind, s.now + delay)], nextTimer := s.nextTimer + 1)
  }

  function ClearTimeout(s: State, t: TimerId): State {
    s.(timers := s.timers - {t})
  }

  // ---- Handlers ----

  function WsSend(s: State, frame: Json, cause: Cause): State {
    var via := if s.ws.Some? && IsOpen(s, s.ws.value) then s.ws else None;
    s.(out := s.out + [Send(via, frame, cause)])
  }

  function SendReady(s: State): State {
    WsSend(s, Print(ReadyMsg(s.commBusBound)), Ready)
  }

  /** `onThrows`: attaching the listener throws, which leaves nothing attached. */
  function BindCommBus(s: State, onThrows: bool): State {
    if s.commBusBound || onThrows then s
    else SendReady(s.(listeners := s.listeners + 1, commBusBound := true))
  }

  function ScheduleBindRetry(s: State): State {
    if s.commBusBound || s.bindRetryTimerId.Some? then s
    else SetTimeout(s, BindRetry, s.cfg.bindRetryMs).(bindRetryTimerId := Some(s.nextTimer))
  }

  function BindRetryFires(s: State, onThrows: bool): State {
    var s1 := s.(bindRetryTimerId := None);
    ScheduleBindRetry(if s1.commBus then BindCommBus(s1, onThrows) else s1)
  }

  function ScheduleWsReconnect(s: State): State {
    if s.wsRetryTimerId.Some? then s
    else SetTimeout(s, Reconnect, s.cfg.reconnectMs).(wsRetryTimerId := Some(s.nextTimer))
  }

  /** `ctorThrows`: the WebSocket constructor throws. */
  function ConnectWs(s: State, ctorThrows: bool): State {
    if s.ws.Some? && s.ws.value < |s.sockets|
       && (s.sockets[s.ws.value].Open? || s.sockets[s.ws.value].Connecting?) then s
    else if ctorThrows then ScheduleWsReconnect(s.(ws := None))
    else s.(ws := Some(|s.sockets|), sockets := s.sockets + [Connecting])
  }

  function LoseWs(s: State): State {
    ScheduleWsReconnect(s.(ws := None))
  }

  function OnOpen(s: State, clock: int): State {
    SendReady(WsSend(s, HelloFrame(s.cfg, clock), Greeting))
  }

  /** A synchronous continuation finds no handle and does nothing, so it has no trace here. */
  function Init(s: State, ctorThrows: bool, onThrows: bool): State {
    ScheduleBindRetry(BindCommBus(ConnectWs(s, ctorThrows).(commBus := true), onThrows))
  }

  /** Removing the entry and its timer and sending the ack, shared by every way to settle. */
  function Settle(s: State, requestId: string, frame: Json): State
    requires requestId in s.pending
  {
    var s1 := ClearTimeout(s.(pending := s.pending - {requestId}), s.pending[requestId].timerId);
    WsSend(s1, frame, Settles(requestId))
  }

  function Reject(s: State, requestId: string, error: string): State
    requires requestId in s.pending
  {
    Settle(s, requestId, AckErr(s.pending[requestId].cmdId, error))
  }

  function RequestTimerFires(s: State, requestId: string, cmdId: string): State {
    WsSend(s.(pending := s.pending - {requestId}),
           AckErr(cmdId, if s.commBusBound then TIMED_OUT else NOT_BOUND), Settles(requestId))
  }

  function Accept(s: State, cmdId: string, requestId: string): State {
    var s1 := s.(dedup := D.Mark(s.dedup, cmdId), requestSeq := s.requestSeq + 1);
    SetTimeout(s1, RequestTimeout(requestId, cmdId), s.cfg.requestTimeoutMs)
      .(pending := s.pending[requestId := Pending(cmdId, s.nextTimer)])
  }

  /** What follows acceptance: refuse without a handle, else try to bind and call the module. */
  function Dispatch(s: State, requestId: string, cmd: Json, onThrows: bool): State
    requires requestId in s.pending
  {
    if !s.commBus then Reject(s, requestId, NOT_READY)
    else
      var s1 := BindCommBus(s, onThrows);
      s1.(out := s1.out + [Call(Envelope(requestId, cmd))])
  }

  function OnHostCommand(s: State, cmd: Json, clock: int, onThrows: bool): State {
    match cmd.Get("id")
    case Some(Str(cmdId)) =>
      if D.Has(s.dedup, cmdId) then WsSend(s, AckDuplicate(cmdId), Duplicate)
      else
        var requestId := RequestId(clock, s.requestSeq + 1);
        Dispatch(Accept(s, cmdId, requestId), requestId, cmd, onThrows)
    case _ => s
  }

  function OnHostEvent(s: State, event: Json, clock: int): State {
    if !s.commBus then s
    else s.(requestSeq := s.requestSeq + 1,
            out := s.out + [Call(Envelope(RequestId(clock, s.requestSeq + 1), event))])
  }

  function OnHostMessage(s: State, msg: Json, clock: int, onThrows: bool): State {
    match msg.Tag()
    case Some(t) =>
      if t == "ping" then WsSend(s, PongFrame(clock), Keepalive)
      else if t == "cmd" then OnHostCommand(s, msg, clock, onThrows)
      else if t == "event" then OnHostEvent(s, msg, clock)
      else s
    case None => s
  }

  function OnWasmMessage(s: State, msg: Json): State {
    match msg.Get("requestId")
    case Some(Str(requestId)) =>
      if requestId !in s.pending then s
      else if msg.Get("ok") == Some(Bool(false)) then Reject(s, requestId, ErrorText(msg))
      else Settle(s, requestId, AckOk(s.pending[requestId].cmdId, msg.Get("response")))
    case _ =>
      if msg.Tag() == Some("event") || msg.Tag() == Some("ack") then WsSend(s, msg, Forwards) else s
  }

  function CallRejected(s: State, requestId: string, reason: string): State {
    if requestId in s.pending then Reject(s, requestId, reason) else s
  }

  function RejectAll(s: State, order: seq<string>): State
    requires forall q :: q in order ==> q in s.pending
    decreases order
  {
    if order == [] then s
    else
      var p := s.pending[order[0]];
      RejectAll(WsSend(ClearTimeout(s, p.timerId), AckErr(p.cmdId, DESTROYED), Settles(order[0])), order[1..])
  }

  function ClearOptional(s: State, t: Option<TimerId>): State {
    if t.Some? then ClearTimeout(s, t.value) else s
  }

  function CancelBindRetry(s: State): State {
    ClearOptional(s, s.bindRetryTimerId).(bindRetryTimerId := None)
  }

  function Unlisten(s: State): State {
    s.(listeners := if s.commBus && s.listeners > 0 then s.listeners - 1 else s.listeners)
  }

  function Unhook(s: State): State {
    Unlisten(s).(commBus := false, commBusBound := false)
  }

  function CloseSocket(sockets: seq<ReadyState>, ws: Option<SocketId>): seq<ReadyState> {
    if ws.Some? && ws.value < |sockets| && sockets[ws.value] != Closed then sockets[ws.value := Closing] else sockets
  }

  function CleanupWs(s: State): State {
    ClearOptional(s, s.wsRetryTimerId).(wsRetryTimerId := None, sockets := CloseSocket(s.sockets, s.ws), ws := None)
  }

  /** `order`: the order in which the pending table is walked. */
  function Destroy(s: State, order: seq<string>): State
    requires forall q :: q in order ==> q in s.pending
  {
    CleanupWs(Unhook(CancelBindRetry(RejectAll(s, order).(pending := map[]))))
  }

  /** What is left when `unregister` throws: its exception leaves `destroy`, and the rest is skipped. */
  function DestroyAborted(s: State, order: seq<string>): State
    requires forall q :: q in order ==> q in s.pending
  {
    Unlisten(CancelBindRetry(RejectAll(s, order).(pending := map[])))
  }

  // ---- Events ----

  /** Everything that can call into an initialized relay, in any order and any number of times. */
  datatype Input =
    | Continuation(onThrows: bool)
    | TimerFires(timer: TimerId, onThrows: bool, ctorThrows: bool)
    | SocketOpens(socket: SocketId, clock: int)
    | SocketChanges(socket: SocketId, to: ReadyState)
    | SocketErrors(socket: SocketId)
    | SocketCloses(socket: SocketId)
    | HostSends(socket: SocketId, msg: Json, clock: int, onThrows: bool)
    | WasmSends(msg: Json)
    | CallRejects(requestId: string, reason: string)
    | TimePasses(ms: nat)
    | Destroyed(order: seq<string>)

  ghost predicate Enabled(s: State, i: Input) {
    match i
    case TimerFires(t, _, _) => t in s.timers && s.timers[t].due <= s.now
    case SocketOpens(k, _) => k < |s.sockets| && s.sockets[k].Connecting?
    case SocketChanges(k, to) => k < |s.sockets| && (to.Closing? || to.Closed?)
    case SocketErrors(k) => k < |s.sockets|
    case SocketCloses(k) => k < |s.sockets|
    case HostSends(k, _, _, _) => k < |s.sockets|
    case WasmSends(_) => s.listeners > 0
    case Destroyed(order) => Distinct(order) && forall q :: q in order <==> q in s.pending
    case _ => true
  }

  function Handle(s: State, i: Input): State
    requires Enabled(s, i)
  {
    match i
    case Continuation(onThrows) => BindCommBus(s, onThrows)
    case TimerFires(t, onThrows, ctorThrows) =>
      (match s.timers[t].kind
       case RequestTimeout(q, c) => RequestTimerFires(ClearTimeout(s, t), q, c)
       case BindRetry => BindRetryFires(ClearTimeout(s, t), onThrows)
       case Reconnect => ConnectWs(ClearTimeout(s, t).(wsRetryTimerId := None), ctorThrows))
    case SocketOpens(k, clock) => OnOpen(s.(sockets := s.sockets[k := Open]), clock)
    case SocketChanges(k, to) => s.(sockets := s.sockets[k := to])
    case SocketErrors(_) => LoseWs(s)
    case SocketCloses(_) => LoseWs(s)
    case HostSends(_, msg, clock, onThrows) => OnHostMessage(s, msg, clock, onThrows)
    case WasmSends(msg) => OnWasmMessage(s, msg)
    case CallRejects(q, reason) => CallRejected(s, q, reason)
    case TimePasses(ms) => s.(now := s.now + ms)
    case Destroyed(order) => Destroy(s, order)
  }

  /** One handler. `out` afterwards holds exactly that handler's foreign calls. */
  function Step(s: State, i: Input): State
    requires Enabled(s, i)
  {
    Handle(s.(out := []), i)
  }
}
