/**
 * What each handler of the relay (ts/infinity-bridge-relay/src/relay.ts) leaves behind, event by event:
 * the frames it sends and over which socket, the calls it makes, the timers it arms and when they are
 * due, and that nothing else changes.
 */
module RelayEffects {
  import opened Base
  import opened Json
  import opened Wire
  import opened RequestIds
  import opened Relay
  import RI = RelayInvariants
  import D = Dedup

  /** The socket that frames go out on: the one in use, if it is open. */
  function Line(s: State): Option<SocketId> {
    if s.ws.Some? && s.ws.value < |s.sockets| && s.sockets[s.ws.value].Open? then s.ws else None
  }

  function ReadyFrame(bound: bool): Json {
    Obj(map["t" := Str("event"), "name" := Str("__bridge_ready"), "data" := Obj(map["ready" := Bool(bound)])])
  }

  function Refusal(cmdId: string, error: string): Json {
    Obj(map["t" := Str("ack"), "id" := Str(cmdId), "ok" := Bool(false), "error" := Str(error)])
  }

  function Success(cmdId: string, response: Option<Json>): Json {
    if response.Some?
    then Obj(map["t" := Str("ack"), "id" := Str(cmdId), "ok" := Bool(true), "response" := response.value])
    else Obj(map["t" := Str("ack"), "id" := Str(cmdId), "ok" := Bool(true)])
  }

  lemma AckFrames(cmdId: string, response: Option<Json>, error: string)
    ensures AckOk(cmdId, response) == Success(cmdId, response) && AckErr(cmdId, error) == Refusal(cmdId, error)
    ensures AckDuplicate(cmdId)
         == Obj(map["t" := Str("ack"), "id" := Str(cmdId), "ok" := Bool(true), "response" := Null, "duplicate" := Bool(true)])
  {
    var ok := map["t" := Str("ack"), "id" := Str(cmdId), "ok" := Bool(true)];
    var no := map["t" := Str("ack"), "id" := Str(cmdId), "ok" := Bool(false)];
    assert ok + map[] + map[] + map[] == ok;
    if response.Some? { assert ok + map[] + map["response" := response.value] + map[] == ok["response" := response.value]; }
    assert no + map["error" := Str(error)] + map[] + map[] == no["error" := Str(error)];
    assert ok + map[] + map["response" := Null] + map["duplicate" := Bool(true)]
        == ok["response" := Null]["duplicate" := Bool(true)];
  }

  lemma ReadyFrames(bound: bool)
    ensures Print(ReadyMsg(bound)) == ReadyFrame(bound)
  {
  }

  // ---- Keepalive ----

  /** A ping is answered with a pong showing the relay's clock, and has no other effect. */
  lemma PingAnswered(s: State, i: Input)
    requires i.HostSends? && Enabled(s, i) && i.msg.Tag() == Some("ping")
    ensures var pong := Obj(map["t" := Str("pong"), "ts" := Int(i.clock)]);
            && Step(s, i) == s.(out := [Send(Line(s), pong, Keepalive)])
            && (0 <= i.clock < 0x1_0000_0000_0000_0000 ==> Parse(pong) == Some(Pong(Some(i.clock as U64))))
  {
    var pong := Obj(map["t" := Str("pong"), "ts" := Int(i.clock)]);
    assert pong.Tag() == Some("pong") && pong.Get("ts") == Some(Int(i.clock));
  }

  // ---- Connecting ----

  /** The fields of a hello. */
  predicate IsHello(frame: Json, cfg: Config, clock: int) {
    && frame.Get("t") == Some(Str("hello"))
    && frame.Get("client") == Some(Str(if cfg.client.Some? then cfg.client.value else "msfs-gauge"))
    && frame.Get("aircraft") == (if cfg.aircraft.Some? then Some(Str(cfg.aircraft.value)) else None)
    && frame.Get("tail") == (if cfg.tail.Some? then Some(Str(cfg.tail.value)) else None)
    && frame.Get("session") == Some(Str(if cfg.session.Some? then cfg.session.value else Decimal(clock)))
    && frame.Get("v") == Some(Int(cfg.protocolVersion))
    && frame.Get("meta") == cfg.meta
  }

  /** A socket that opens greets the host, then reports the bind state; both go over the socket in use. */
  lemma OpeningGreets(s: State, i: Input)
    requires i.SocketOpens? && Enabled(s, i)
    ensures var s', up := Step(s, i), s.(sockets := s.sockets[i.socket := Open]);
            && |s'.out| == 2 && s' == up.(out := s'.out)
            && s'.out[0].Send? && s'.out[0].via == Line(up) && IsHello(s'.out[0].frame, s.cfg, i.clock)
            && s'.out[1] == Send(Line(up), ReadyFrame(s.commBusBound), Ready)
  {
    HelloFields(s.cfg, i.clock);
    hide HelloFrame, Decimal, IsHello;
  }

  lemma HelloFields(cfg: Config, clock: int)
    ensures IsHello(HelloFrame(cfg, clock), cfg, clock)
  {
    hide Decimal;
    var frame := HelloFrame(cfg, clock);
    var required := map["t" := Str("hello"),
                        "client" := Str(cfg.client.GetOr("msfs-gauge")),
                        "session" := Str(cfg.session.GetOr(Decimal(clock))),
                        "v" := Int(cfg.protocolVersion)];
    assert frame.fields == required + Opt("aircraft", OptStr(cfg.aircraft)) + Opt("tail", OptStr(cfg.tail)) + Opt("meta", cfg.meta);
  }

  /** The host reads such a hello as the relay means it. */
  lemma HelloDecodes(frame: Json, cfg: Config, clock: int)
    requires IsHello(frame, cfg, clock) && 0 <= cfg.protocolVersion < 0x1_0000_0000
    ensures Parse(frame)
         == Some(Hello(HelloPayload(
              Some(if cfg.client.Some? then cfg.client.value else "msfs-gauge"), cfg.aircraft, cfg.tail,
              Some(if cfg.session.Some? then cfg.session.value else Decimal(clock)),
              Some(cfg.protocolVersion as U32), if cfg.meta == Some(Null) then None else cfg.meta)))
  {
    assert frame.Tag() == Some("hello");
    hide Decimal;
    assert Parse(frame) == ParseHello(frame);
  }

  /** An error or close of any socket gives up the one in use and arms one reconnect, unless one is armed. */
  lemma LosingReconnects(s: State, i: Input)
    requires (i.SocketErrors? || i.SocketCloses?) && Enabled(s, i)
    ensures Step(s, i)
         == if s.wsRetryTimerId.Some? then s.(ws := None, out := [])
            else s.(ws := None, wsRetryTimerId := Some(s.nextTimer), nextTimer := s.nextTimer + 1, out := [],
                    timers := s.timers[s.nextTimer := Timer(Reconnect, s.now + s.cfg.reconnectMs)])
  {
  }

  /**
   * A reconnect timer of a relay that can get back leads to a new socket, still connecting; if the
   * constructor throws, to the next reconnect.
   */
  lemma ReconnectConnects(s: State, i: Input)
    requires RI.NeverStranded(s) && i.TimerFires? && Enabled(s, i) && s.timers[i.timer].kind == Reconnect
    ensures Step(s, i)
         == if i.ctorThrows
            then s.(wsRetryTimerId := Some(s.nextTimer), nextTimer := s.nextTimer + 1, out := [],
                    timers := (s.timers - {i.timer})[s.nextTimer := Timer(Reconnect, s.now + s.cfg.reconnectMs)])
            else s.(ws := Some(|s.sockets|), sockets := s.sockets + [Connecting], wsRetryTimerId := None, out := [],
                    timers := s.timers - {i.timer})
    ensures i.ctorThrows ==> forall t :: Live(Step(s, i), t, Reconnect) <==> t == s.nextTimer
    ensures !i.ctorThrows ==> forall t :: !Live(Step(s, i), t, Reconnect)
  {
    assert Live(s, i.timer, Reconnect);
    assert s.ws.None?;
  }

  // ---- Binding ----

  /**
   * A bind retry recovers: if attaching does not throw, the relay is bound, listens once, no retry is
   * left, and the host is told. If it throws, one retry is armed, one interval from now.
   */
  lemma RetryBinds(s: State, i: Input)
    requires RI.NeverStranded(s) && !s.commBusBound
    requires i.TimerFires? && Enabled(s, i) && s.timers[i.timer].kind == BindRetry
    ensures Step(s, i)
         == if i.onThrows
            then s.(bindRetryTimerId := Some(s.nextTimer), nextTimer := s.nextTimer + 1, out := [],
                    timers := (s.timers - {i.timer})[s.nextTimer := Timer(BindRetry, s.now + s.cfg.bindRetryMs)])
            else s.(commBusBound := true, listeners := 1, bindRetryTimerId := None, timers := s.timers - {i.timer},
                    out := [Send(Line(s), ReadyFrame(true), Ready)])
    ensures i.onThrows ==> forall t :: Live(Step(s, i), t, BindRetry) <==> t == s.nextTimer
    ensures !i.onThrows ==> forall t :: !Live(Step(s, i), t, BindRetry)
  {
    assert Live(s, i.timer, BindRetry);
    ReadyFrames(true);
    hide Print;
  }

  /** A retry that finds the relay bound already only disarms itself. */
  lemma RetryWhenBound(s: State, i: Input)
    requires s.commBusBound && i.TimerFires? && Enabled(s, i) && s.timers[i.timer].kind == BindRetry
    ensures Step(s, i) == s.(bindRetryTimerId := None, timers := s.timers - {i.timer}, out := [])
  {
  }

  /** The continuation binds a relay that is not bound and does nothing to one that is. */
  lemma ContinuationBinds(s: State, i: Input)
    requires i.Continuation?
    ensures Step(s, i)
         == if s.commBusBound || i.onThrows then s.(out := [])
            else s.(commBusBound := true, listeners := s.listeners + 1,
                    out := [Send(Line(s), ReadyFrame(true), Ready)])
  {
    ReadyFrames(true);
    hide Print;
  }

  /** `init` connects and binds what it can, and arms a timer for each of the two that failed. */
  lemma InitTries(cfg: Config, capacity: nat, ctorThrows: bool, onThrows: bool)
    ensures var s, t := Init(Fresh(cfg, capacity), ctorThrows, onThrows), if ctorThrows then 1 else 0;
            && s.commBus && s.commBusBound == !onThrows && s.listeners == (if onThrows then 0 else 1)
            && s.sockets == (if ctorThrows then [] else [Connecting]) && s.ws == (if ctorThrows then None else Some(0))
            && s.wsRetryTimerId == (if ctorThrows then Some(0) else None)
            && s.bindRetryTimerId == (if onThrows then Some(t) else None)
            && s.timers == (if ctorThrows then map[0 := Timer(Reconnect, cfg.reconnectMs)] else map[])
                           + (if onThrows then map[t := Timer(BindRetry, cfg.bindRetryMs)] else map[])
            && s.out == (if onThrows then [] else [Send(None, ReadyFrame(true), Ready)])
            && s.pending == map[] && s.requestSeq == 0 && s.dedup == D.Ring([], capacity) && s.cfg == cfg
  {
    ReadyFrames(true);
    hide Print;
  }

  // ---- Commands of the host ----

  /** The state once a command has been taken on: marked, numbered, pending, with its timer running. */
  function Taken(s: State, cmdId: string, q: string): State {
    s.(dedup := D.Mark(s.dedup, cmdId), requestSeq := s.requestSeq + 1,
       pending := s.pending[q := Pending(cmdId, s.nextTimer)], nextTimer := s.nextTimer + 1,
       timers := s.timers[s.nextTimer := Timer(RequestTimeout(q, cmdId), s.now + s.cfg.requestTimeoutMs)])
  }

  predicate IsFresh(s: State, i: Input, cmdId: string) {
    i.HostSends? && i.msg.Tag() == Some("cmd") && i.msg.Get("id") == Some(Str(cmdId)) && cmdId !in s.dedup.order
  }

  lemma FreshTaken(s: State, i: Input, cmdId: string)
    requires Enabled(s, i) && IsFresh(s, i, cmdId)
    ensures var s0, q := s.(out := []), RequestId(i.clock, s.requestSeq + 1);
            q in Taken(s0, cmdId, q).pending && Step(s, i) == Dispatch(Taken(s0, cmdId, q), q, i.msg, i.onThrows)
  {
    hide RequestId, D.Mark, Dispatch;
    assert !D.Has(s.dedup, cmdId);
  }

  /**
   * A new command is taken on and handed to the CommBus under the next request id. A relay that is not
   * bound tries to bind first, and tells the host if that took.
   */
  lemma CommandForwarded(s: State, i: Input, cmdId: string)
    requires Enabled(s, i) && IsFresh(s, i, cmdId) && s.commBus
    ensures var q := RequestId(i.clock, s.requestSeq + 1);
            var call := Call(Obj(map["requestId" := Str(q), "payload" := i.msg]));
            Step(s, i) == if s.commBusBound || i.onThrows then Taken(s, cmdId, q).(out := [call])
                          else Taken(s, cmdId, q).(commBusBound := true, listeners := s.listeners + 1,
                                                   out := [Send(Line(s), ReadyFrame(true), Ready), call])
  {
    FreshTaken(s, i, cmdId);
    ReadyFrames(true);
    hide Print, RequestId, D.Mark, Step;
  }

  lemma TakenThenSettled(s: State, cmdId: string, q: string, frame: Json)
    requires q !in s.pending && s.nextTimer !in s.timers
    ensures Settle(Taken(s, cmdId, q), q, frame)
         == s.(dedup := D.Mark(s.dedup, cmdId), requestSeq := s.requestSeq + 1, nextTimer := s.nextTimer + 1,
               out := s.out + [Send(Line(s), frame, Settles(q))])
  {
    hide D.Mark;
    var taken := Taken(s, cmdId, q);
    assert taken.pending - {q} == s.pending && taken.timers - {s.nextTimer} == s.timers;
  }

  lemma NewEntry(s: State, clock: int)
    requires RI.Consistent(s)
    ensures RequestId(clock, s.requestSeq + 1) !in s.pending && s.nextTimer !in s.timers
  {
    var q := RequestId(clock, s.requestSeq + 1);
    hide RequestId, RI.Issued;
    if q in s.pending { RI.NextIdIsFresh(q, s.requestSeq, clock); }
  }

  /** Without a handle it is taken on, refused at once, and neither pending nor timed afterwards. */
  lemma CommandRefused(s: State, i: Input, cmdId: string)
    requires RI.Consistent(s) && Enabled(s, i) && IsFresh(s, i, cmdId) && !s.commBus
    ensures Step(s, i)
         == s.(dedup := D.Mark(s.dedup, cmdId), requestSeq := s.requestSeq + 1, nextTimer := s.nextTimer + 1,
               out := [Send(Line(s), Refusal(cmdId, "COMMBUS_NOT_READY: CommBus not initialized"),
                            Settles(RequestId(i.clock, s.requestSeq + 1)))])
  {
    var s0, q := s.(out := []), RequestId(i.clock, s.requestSeq + 1);
    AckFrames(cmdId, None, NOT_READY);
    NewEntry(s, i.clock);
    TakenThenSettled(s0, cmdId, q, AckErr(cmdId, NOT_READY));
    FreshTaken(s, i, cmdId);
    hide RequestId, D.Mark, AckErr, Settle, RI.Consistent, Step;
  }

  /** A remembered id gets a duplicate ack; the command goes no further. */
  lemma DuplicateAcknowledged(s: State, i: Input, cmdId: string)
    requires Enabled(s, i) && i.HostSends? && i.msg.Tag() == Some("cmd") && i.msg.Get("id") == Some(Str(cmdId))
    requires cmdId in s.dedup.order
    ensures var ack := Obj(map["t" := Str("ack"), "id" := Str(cmdId), "ok" := Bool(true), "response" := Null,
                               "duplicate" := Bool(true)]);
            Step(s, i) == s.(out := [Send(Line(s), ack, Duplicate)])
  {
    AckFrames(cmdId, None, "");
    hide AckDuplicate;
    assert D.Has(s.dedup, cmdId);
  }

  /** An event of the host is handed to the CommBus as it is, under the next request id, and never waits. */
  lemma EventForwarded(s: State, i: Input)
    requires i.HostSends? && Enabled(s, i) && i.msg.Tag() == Some("event")
    ensures Step(s, i)
         == if s.commBus
            then s.(requestSeq := s.requestSeq + 1,
                    out := [Call(Obj(map["requestId" := Str(RequestId(i.clock, s.requestSeq + 1)), "payload" := i.msg]))])
            else s.(out := [])
  {
    hide RequestId;
  }

  /** Every other message of the host is ignored, and so is a command without a text id. */
  lemma OthersIgnored(s: State, i: Input)
    requires i.HostSends? && Enabled(s, i)
    requires i.msg.Tag().None? || i.msg.Tag().value !in {"ping", "cmd", "event"}
             || (i.msg.Tag() == Some("cmd") && !(i.msg.Get("id").Some? && i.msg.Get("id").value.Str?))
    ensures Step(s, i) == s.(out := [])
  {
  }

  // ---- Answers ----

  /** The state once request q is settled: no entry, no timer, and this ack sent for it. */
  function Settled(s: State, q: string, ack: Json): State
    requires q in s.pending
  {
    s.(pending := s.pending - {q}, timers := s.timers - {s.pending[q].timerId}, out := [Send(Line(s), ack, Settles(q))])
  }

  lemma SettledState(s: State, q: string, frame: Json)
    requires q in s.pending
    ensures Settle(s.(out := []), q, frame) == Settled(s, q, frame)
  {
  }

  /**
   * A message of the module with a text request id answers the request it names with a success, unless
   * its `ok` is false. One that names no pending request is dropped, never passed on.
   */
  lemma AnswerSettles(s: State, i: Input, q: string)
    requires i.WasmSends? && Enabled(s, i) && i.msg.Get("requestId") == Some(Str(q)) && i.msg.Get("ok") != Some(Bool(false))
    ensures Step(s, i) == if q in s.pending then Settled(s, q, Success(s.pending[q].cmdId, i.msg.Get("response")))
                          else s.(out := [])
  {
    if q in s.pending {
      AckFrames(s.pending[q].cmdId, i.msg.Get("response"), "");
      SettledState(s, q, AckOk(s.pending[q].cmdId, i.msg.Get("response")));
      hide AckOk, Settle;
    }
  }

  /** If `ok` is false it refuses the request with the error, or with a stock text if there is none. */
  lemma FailureSettles(s: State, i: Input, q: string)
    requires i.WasmSends? && Enabled(s, i) && i.msg.Get("requestId") == Some(Str(q)) && i.msg.Get("ok") == Some(Bool(false))
    ensures q !in s.pending ==> Step(s, i) == s.(out := [])
    ensures q in s.pending && (i.msg.Get("error").None? || i.msg.Get("error") == Some(Null)) ==>
              Step(s, i) == Settled(s, q, Refusal(s.pending[q].cmdId, "[msfs-bridge] WASM returned error"))
    ensures forall e :: q in s.pending && i.msg.Get("error") == Some(Str(e)) ==>
              Step(s, i) == Settled(s, q, Refusal(s.pending[q].cmdId, e))
  {
    if q in s.pending {
      AckFrames(s.pending[q].cmdId, None, ErrorText(i.msg));
      SettledState(s, q, AckErr(s.pending[q].cmdId, ErrorText(i.msg)));
      hide AckErr, Settle;
    }
  }

  /** An event or ack of the module without one goes to the host as it is; anything else goes nowhere. */
  lemma MessagePassedOn(s: State, i: Input)
    requires i.WasmSends? && Enabled(s, i) && !(i.msg.Get("requestId").Some? && i.msg.Get("requestId").value.Str?)
    ensures Step(s, i)
         == s.(out := if i.msg.Tag() == Some("event") || i.msg.Tag() == Some("ack") then [Send(Line(s), i.msg, Forwards)] else [])
  {
  }

  /** A rejected CommBus call refuses its request with the reason, if it is still pending. */
  lemma RejectionRefuses(s: State, i: Input)
    requires i.CallRejects?
    ensures Step(s, i)
         == if i.requestId in s.pending then Settled(s, i.requestId, Refusal(s.pending[i.requestId].cmdId, i.reason))
            else s.(out := [])
  {
    if i.requestId in s.pending {
      AckFrames(s.pending[i.requestId].cmdId, None, i.reason);
      hide AckErr;
    }
  }

  /** A request that times out is refused, and the reason tells an unbound relay from a silent module. */
  lemma TimeoutRefuses(s: State, i: Input)
    requires RI.Consistent(s) && i.TimerFires? && Enabled(s, i) && s.timers[i.timer].kind.RequestTimeout?
    ensures var q := s.timers[i.timer].kind.requestId;
            && q in s.pending && s.pending[q].timerId == i.timer
            && Step(s, i) == Settled(s, q, Refusal(s.pending[q].cmdId,
                 if s.commBusBound then "WASM_TIMEOUT: no response from WASM gauge"
                 else "COMMBUS_NOT_BOUND: response listener never attached — no WASM module is reachable"))
  {
    RI.TimeoutDiagnosis(s, i);
    var q := s.timers[i.timer].kind.requestId;
    assert RI.HasRequest(s, i.timer);
    AckFrames(s.pending[q].cmdId, None, if s.commBusBound then TIMED_OUT else NOT_BOUND);
    hide AckErr, Step;
  }

  // ---- Tearing down ----

  /** The refusals `destroy` sends, in the order the table is walked. */
  function Farewell(s: State, order: seq<string>): seq<Out>
    requires forall q :: q in order ==> q in s.pending
  {
    seq(|order|, k requires 0 <= k < |order| =>
      Send(Line(s), Refusal(s.pending[order[k]].cmdId, "[msfs-bridge] Relay destroyed"), Settles(order[k])))
  }

  lemma FarewellStarts(s: State, s1: State, order: seq<string>)
    requires order != [] && (forall q :: q in order ==> q in s.pending) && s1.pending == s.pending && Line(s1) == Line(s)
    ensures Farewell(s, order)
         == [Send(Line(s), Refusal(s.pending[order[0]].cmdId, "[msfs-bridge] Relay destroyed"), Settles(order[0]))]
            + Farewell(s1, order[1..])
  {
    hide Line, Refusal;
  }

  lemma {:induction false} RejectAllSends(s: State, order: seq<string>)
    requires forall q :: q in order ==> q in s.pending
    ensures RejectAll(s, order).out == s.out + Farewell(s, order)
    decreases order
  {
    if order != [] {
      var p := s.pending[order[0]];
      var s1 := WsSend(ClearTimeout(s, p.timerId), AckErr(p.cmdId, DESTROYED), Settles(order[0]));
      AckFrames(p.cmdId, None, DESTROYED);
      hide AckErr;
      RejectAllSends(s1, order[1..]);
      FarewellStarts(s, s1, order);
    }
  }

  /** Once every request is refused, the only timers left are those the two fields name. */
  lemma RetryTimersLeft(s: State, order: seq<string>)
    requires RI.Consistent(s) && RI.NeverStranded(s) && forall q :: q in order <==> q in s.pending
    ensures var r := RejectAll(s, order);
            && r == s.(timers := r.timers, out := s.out + Farewell(s, order))
            && forall t :: t in r.timers ==> Some(t) == s.bindRetryTimerId || Some(t) == s.wsRetryTimerId
  {
    RI.RejectAllEffect(s, order);
    RejectAllSends(s, order);
    forall t | t in RejectAll(s, order).timers
      ensures Some(t) == s.bindRetryTimerId || Some(t) == s.wsRetryTimerId
    {
      RI.NoRequestTimersLeft(s, order, t);
      assert Live(s, t, s.timers[t].kind);
    }
  }

  lemma LastTimersCleared(s: State)
    requires forall t :: t in s.timers ==> Some(t) == s.bindRetryTimerId || Some(t) == s.wsRetryTimerId
    requires s.commBus && s.listeners <= 1 && (s.ws.Some? ==> s.ws.value < |s.sockets|)
    ensures CleanupWs(Unhook(CancelBindRetry(s)))
         == s.(commBus := false, commBusBound := false, listeners := 0, bindRetryTimerId := None, ws := None,
               wsRetryTimerId := None, timers := map[],
               sockets := if s.ws.Some? && !s.sockets[s.ws.value].Closed? then s.sockets[s.ws.value := Closing] else s.sockets)
  {
    assert CleanupWs(Unhook(CancelBindRetry(s))).timers == map[];
  }

  /**
   * `destroy` refuses every pending command over the socket in use, then leaves nothing behind: no
   * entry, no timer, no listener, no handle, and the socket is closing.
   */
  lemma DestroyLeavesNothing(s: State, i: Input)
    requires RI.Consistent(s) && RI.NeverStranded(s) && i.Destroyed? && Enabled(s, i)
    ensures Step(s, i)
         == s.(commBus := false, commBusBound := false, listeners := 0, bindRetryTimerId := None, ws := None,
               wsRetryTimerId := None, pending := map[], timers := map[], out := Farewell(s, i.order),
               sockets := if s.ws.Some? && !s.sockets[s.ws.value].Closed? then s.sockets[s.ws.value := Closing] else s.sockets)
  {
    var s0 := s.(out := []);
    Cleared(s);
    hide RI.Consistent, RI.NeverStranded, RejectAll, CleanupWs, Unhook, CancelBindRetry, Step;
    RetryTimersLeft(s0, i.order);
    assert Farewell(s0, i.order) == Farewell(s, i.order);
    hide Farewell;
    StepDestroys(s, i);
    LastTimersCleared(RejectAll(s0, i.order).(pending := map[]));
  }

  lemma Cleared(s: State)
    requires RI.Consistent(s) && RI.NeverStranded(s)
    ensures var s0 := s.(out := []);
            RI.Consistent(s0) && RI.NeverStranded(s0) && s.commBus && s.listeners <= 1 && (s.ws.Some? ==> s.ws.value < |s.sockets|)
  {
    RI.ConsistentFrame(s, s.(out := []));
    RI.ConnectionFrame(s, s.(out := []));
  }

  lemma StepDestroys(s: State, i: Input)
    requires i.Destroyed? && Enabled(s, i)
    ensures Step(s, i) == CleanupWs(Unhook(CancelBindRetry(RejectAll(s.(out := []), i.order).(pending := map[]))))
  {
    hide RejectAll, CleanupWs, Unhook, CancelBindRetry;
  }

  lemma ReconnectStays(s: State, order: seq<string>)
    requires RI.Consistent(s) && RI.NeverStranded(s) && (forall q :: q in order <==> q in s.pending) && s.wsRetryTimerId.Some?
    ensures var t := s.wsRetryTimerId.value;
            t in s.timers && t in RejectAll(s, order).timers && RejectAll(s, order).timers[t] == s.timers[t]
            && s.bindRetryTimerId != s.wsRetryTimerId
  {
    RI.RejectAllEffect(s, order);
    forall q | q in order ensures s.pending[q].timerId != s.wsRetryTimerId.value {
      assert RI.HasTimer(s, q);
    }
  }

  lemma BindTimerCleared(s: State)
    requires forall t :: t in s.timers ==> Some(t) == s.bindRetryTimerId || Some(t) == s.wsRetryTimerId
    requires s.wsRetryTimerId.Some? ==> s.wsRetryTimerId.value in s.timers && s.bindRetryTimerId != s.wsRetryTimerId
    requires s.commBus && s.listeners <= 1
    ensures Unlisten(CancelBindRetry(s))
         == s.(listeners := 0, bindRetryTimerId := None,
               timers := if s.wsRetryTimerId.None? then map[]
                         else map[s.wsRetryTimerId.value := s.timers[s.wsRetryTimerId.value]])
  {
    var kept := if s.wsRetryTimerId.None? then map[] else map[s.wsRetryTimerId.value := s.timers[s.wsRetryTimerId.value]];
    assert Unlisten(CancelBindRetry(s)).timers == kept;
  }

  /** If the handle's `unregister` throws, the requests are gone but handle, bind state and socket stay. */
  lemma DestroyCutShort(s: State, order: seq<string>)
    requires RI.Consistent(s) && RI.NeverStranded(s) && s.out == [] && forall q :: q in order <==> q in s.pending
    ensures s.wsRetryTimerId.Some? ==> s.wsRetryTimerId.value in s.timers
    ensures DestroyAborted(s, order)
         == s.(listeners := 0, bindRetryTimerId := None, pending := map[], out := Farewell(s, order),
               timers := if s.wsRetryTimerId.None? then map[]
                         else map[s.wsRetryTimerId.value := s.timers[s.wsRetryTimerId.value]])
  {
    RetryTimersLeft(s, order);
    if s.wsRetryTimerId.Some? { ReconnectStays(s, order); }
    Cleared(s);
    hide RI.Consistent, RI.NeverStranded, RejectAll, Farewell, Unlisten, CancelBindRetry;
    BindTimerCleared(RejectAll(s, order).(pending := map[]));
  }
}
