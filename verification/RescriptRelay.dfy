/**
 * The ReScript relay (rescript/infinity-bridge-relay/src/BridgeRelay.res and Wire.res) and its
 * simulation of the TypeScript one: given the same events they take the same steps, and the host
 * cannot tell their acks apart. The record has the fields of the TypeScript object and, besides,
 * the handler that `init` stores for the listener. Nothing checks that a command's id is text, so the
 * ring and the closures of a request hold whatever the message had there.
 */
module RescriptRelay {
  import opened Base
  import opened Json
  import opened Wire
  import opened RequestIds
  import D = Dedup
  import R = Relay
  import RI = RelayInvariants
  import Hub
  import W = WasmBridge

  /** What a JavaScript set goes by: values for primitives, identity for objects and arrays. */
  datatype Key = Value(id: Option<Json>) | Object(stamp: nat)

  /** An object that was just parsed is not in any set; `stamp` stands for its identity. */
  function KeyOf(id: Option<Json>, stamp: nat): Key {
    if id.Some? && (id.value.Obj? || id.value.Arr?) then Object(stamp) else Value(id)
  }

  /**
   * `captured`: the id that the closures of a request hold, which `fields.pending` only labels with
   * its text. `ring` takes the place of `fields.dedup`.
   */
  datatype State = State(
    fields: R.State, onWasmHandler: bool, ring: D.Ring<Key>, captured: map<string, Option<Json>>)

  function Label(id: Option<Json>): string {
    match id
    case Some(Str(s)) => s
    case _ => ""
  }

  function IdOf(s: State, q: string): Option<Json> {
    if q in s.captured then s.captured[q] else None
  }

  // ---- Wire.res ----

  /** The variant a message is read as: any object with a known tag. */
  function ParseWireMsg(j: Json): Option<string> {
    match j.Tag()
    case Some(t) => if t in {"hello", "ping", "pong", "cmd", "ack", "event"} then Some(t) else None
    case None => None
  }

  datatype BusResponse = BusResponse(requestId: string, ok: bool, response: Option<Json>, error: Option<Json>)

  function ParseCommBusResponse(j: Json): Option<BusResponse> {
    match (j.Get("requestId"), j.Get("ok"))
    case (Some(Str(q)), Some(Bool(ok))) => Some(BusResponse(q, ok, j.Get("response"), j.Get("error")))
    case _ => None
  }

  // ---- Handlers ----

  function WsSend(s: State, frame: Json, cause: R.Cause): State {
    s.(fields := R.WsSend(s.fields, frame, cause))
  }

  function AckFrame(id: Option<Json>, ok: bool, response: Option<Json>, error: Option<Json>, duplicate: Option<bool>): Json {
    Obj(map["t" := Str("ack"), "ok" := Bool(ok)]
        + Opt("id", id) + Opt("error", error) + Opt("response", response) + Opt("duplicate", OptBool(duplicate)))
  }

  function SendAck(s: State, id: Option<Json>, ok: bool, response: Option<Json>, error: Option<Json>,
                   duplicate: Option<bool>, cause: R.Cause): State {
    WsSend(s, AckFrame(id, ok, response, error, duplicate), cause)
  }

  function SendReady(s: State): State {
    WsSend(s, Print(ReadyMsg(s.fields.commBusBound)), R.Ready)
  }

  function BindCommBus(s: State, onThrows: bool): State {
    if s.fields.commBusBound || !s.onWasmHandler || onThrows then s
    else SendReady(s.(fields := s.fields.(listeners := s.fields.listeners + 1, commBusBound := true)))
  }

  function ScheduleBindRetry(s: State): State {
    var f := s.fields;
    if f.commBusBound || f.bindRetryTimerId.Some? then s
    else s.(fields := R.SetTimeout(f, R.BindRetry, f.cfg.bindRetryMs).(bindRetryTimerId := Some(f.nextTimer)))
  }

  function BindRetryFires(s: State, onThrows: bool): State {
    var s1 := s.(fields := s.fields.(bindRetryTimerId := None));
    ScheduleBindRetry(if s1.fields.commBus then BindCommBus(s1, onThrows) else s1)
  }

  function ScheduleWsReconnect(s: State): State {
    var f := s.fields;
    if f.wsRetryTimerId.Some? then s
    else s.(fields := R.SetTimeout(f, R.Reconnect, f.cfg.reconnectMs).(wsRetryTimerId := Some(f.nextTimer)))
  }

  function ConnectWs(s: State, ctorThrows: bool): State {
    var f := s.fields;
    var alreadyActive := f.ws.Some? && f.ws.value < |f.sockets|
                         && (f.sockets[f.ws.value] == R.Open || f.sockets[f.ws.value] == R.Connecting);
    if alreadyActive then s
    else if ctorThrows then ScheduleWsReconnect(s.(fields := f.(ws := None)))
    else s.(fields := f.(sockets := f.sockets + [R.Connecting], ws := Some(|f.sockets|)))
  }

  function LoseWs(s: State): State {
    ScheduleWsReconnect(s.(fields := s.fields.(ws := None)))
  }

  function OnOpen(s: State, clock: int): State {
    SendReady(WsSend(s, R.HelloFrame(s.fields.cfg, clock), R.Greeting))
  }

  function Init(s: State, ctorThrows: bool, onThrows: bool): State {
    var s1 := ConnectWs(s, ctorThrows).(onWasmHandler := true);
    ScheduleBindRetry(BindCommBus(s1.(fields := s1.fields.(commBus := true)), onThrows))
  }

  /** The entry is deleted and its timer cleared before `resolve` or `reject` sends the ack. */
  function TakePending(s: State, q: string): State
    requires q in s.fields.pending
  {
    var f := s.fields;
    s.(fields := R.ClearTimeout(f.(pending := f.pending - {q}), f.pending[q].timerId))
  }

  function Reject(s: State, q: string, error: Option<Json>): State
    requires q in s.fields.pending
  {
    SendAck(TakePending(s, q), IdOf(s, q), false, None, error, None, R.Settles(q))
  }

  function RequestTimerFires(s: State, q: string): State {
    var f := s.fields;
    SendAck(s.(fields := f.(pending := f.pending - {q})), IdOf(s, q), false, None,
            Some(Str(if f.commBusBound then R.TIMED_OUT else R.NOT_BOUND)), None, R.Settles(q))
  }

  function NextRequestId(s: State, clock: int): string {
    RequestId(clock, s.fields.requestSeq + 1)
  }

  function Register(s: State, id: Option<Json>, q: string): State {
    var f := s.fields.(requestSeq := s.fields.requestSeq + 1);
    State(R.SetTimeout(f, R.RequestTimeout(q, Label(id)), f.cfg.requestTimeoutMs)
            .(pending := f.pending[q := R.Pending(Label(id), f.nextTimer)]),
          s.onWasmHandler, D.Mark(s.ring, KeyOf(id, s.fields.requestSeq + 1)), s.captured[q := id])
  }

  function CallWasm(s: State, envelope: Json): State {
    s.(fields := s.fields.(out := s.fields.out + [R.Call(envelope)]))
  }

  function Dispatch(s: State, q: string, cmd: Json, onThrows: bool): State
    requires q in s.fields.pending
  {
    if !s.fields.commBus then Reject(s, q, Some(Str(R.NOT_READY)))
    else CallWasm(BindCommBus(s, onThrows), R.Envelope(q, cmd))
  }

  /** The id is taken from the message unchecked. */
  function OnHostCommand(s: State, cmd: Json, clock: int, onThrows: bool): State {
    var id := cmd.Get("id");
    if D.Has(s.ring, KeyOf(id, s.fields.requestSeq + 1)) then SendAck(s, id, true, Some(Null), None, Some(true), R.Duplicate)
    else
      var q := NextRequestId(s, clock);
      Dispatch(Register(s, id, q), q, cmd, onThrows)
  }

  function OnHostEvent(s: State, event: Json, clock: int): State {
    if !s.fields.commBus then s
    else CallWasm(s.(fields := s.fields.(requestSeq := s.fields.requestSeq + 1)), R.Envelope(NextRequestId(s, clock), event))
  }

  function OnHostMessage(s: State, msg: Json, clock: int, onThrows: bool): State {
    match ParseWireMsg(msg)
    case Some(t) =>
      if t == "ping" then WsSend(s, R.PongFrame(clock), R.Keepalive)
      else if t == "cmd" then OnHostCommand(s, msg, clock, onThrows)
      else if t == "event" then OnHostEvent(s, msg, clock)
      else s
    case None => s
  }

  function OnWasmMessage(s: State, msg: Json): State {
    match ParseCommBusResponse(msg)
    case Some(resp) =>
      if resp.requestId !in s.fields.pending then s
      else if resp.ok then
        SendAck(TakePending(s, resp.requestId), IdOf(s, resp.requestId), true,
                Some(resp.response.GetOr(Null)), None, None, R.Settles(resp.requestId))
      else Reject(s, resp.requestId, Some(resp.error.GetOr(Str(R.WASM_ERROR))))
    case None =>
      (match ParseWireMsg(msg)
       case Some(t) => if t == "event" || t == "ack" then WsSend(s, msg, R.Forwards) else s
       case None => s)
  }

  /** `thrown`: the message of the rejection, if it is an exception that has one. */
  function CallRejected(s: State, q: string, thrown: Option<string>): State {
    if q in s.fields.pending then Reject(s, q, Some(Str(thrown.GetOr("unknown")))) else s
  }

  function RejectAll(s: State, order: seq<string>): State
    requires forall q :: q in order ==> q in s.fields.pending
    decreases order
  {
    if order == [] then s
    else
      var p := s.fields.pending[order[0]];
      var s1 := s.(fields := R.ClearTimeout(s.fields, p.timerId));
      RejectAll(SendAck(s1, IdOf(s, order[0]), false, None, Some(Str(R.DESTROYED)), None, R.Settles(order[0])), order[1..])
  }

  function Unhook(s: State): State {
    var f := s.fields;
    s.(fields := f.(listeners := if f.commBus && s.onWasmHandler && f.listeners > 0 then f.listeners - 1 else f.listeners,
                    commBus := false, commBusBound := false),
       onWasmHandler := false)
  }

  /**
   * The listener is unhooked before the bind retry is cancelled, unlike in TypeScript, and an
   * `unregister` that throws is ignored.
   */
  function Destroy(s: State, order: seq<string>): State
    requires forall q :: q in order ==> q in s.fields.pending
  {
    var s1 := RejectAll(s, order);
    var s2 := Unhook(s1.(fields := s1.fields.(pending := map[])));
    s2.(fields := R.CleanupWs(R.CancelBindRetry(s2.fields)))
  }

  function Handle(s: State, i: R.Input, thrown: Option<string>): State
    requires R.Enabled(s.fields, i)
  {
    var f := s.fields;
    match i
    case Continuation(onThrows) => BindCommBus(s, onThrows)
    case TimerFires(t, onThrows, ctorThrows) =>
      (var s1 := s.(fields := R.ClearTimeout(f, t));
       match f.timers[t].kind
       case RequestTimeout(q, _) => RequestTimerFires(s1, q)
       case BindRetry => BindRetryFires(s1, onThrows)
       case Reconnect => ConnectWs(s1.(fields := s1.fields.(wsRetryTimerId := None)), ctorThrows))
    case SocketOpens(k, clock) => OnOpen(s.(fields := f.(sockets := f.sockets[k := R.Open])), clock)
    case SocketChanges(k, to) => s.(fields := f.(sockets := f.sockets[k := to]))
    case SocketErrors(_) => LoseWs(s)
    case SocketCloses(_) => LoseWs(s)
    case HostSends(_, msg, clock, onThrows) => OnHostMessage(s, msg, clock, onThrows)
    case WasmSends(msg) => OnWasmMessage(s, msg)
    case CallRejects(q, _) => CallRejected(s, q, thrown)
    case TimePasses(ms) => s.(fields := f.(now := f.now + ms))
    case Destroyed(order) => Destroy(s, order)
  }

  function Step(s: State, i: R.Input, thrown: Option<string>): State
    requires R.Enabled(s.fields, i)
  {
    Handle(s.(fields := s.fields.(out := [])), i, thrown)
  }

  // ---- Simulation ----

  function OrNull(j: Json, key: string): Json {
    j.Get(key).GetOr(Null)
  }

  /** Equal, or acks equal in id, ok, duplicate and response, where an absent response is null. */
  predicate SameFrame(f: Json, g: Json) {
    || f == g
    || (f.Tag() == Some("ack") == g.Tag() && f.Get("id") == g.Get("id") && f.Get("ok") == g.Get("ok")
        && f.Get("duplicate") == g.Get("duplicate") && OrNull(f, "response") == OrNull(g, "response"))
  }

  predicate SameCall(o: R.Out, p: R.Out) {
    match (o, p)
    case (Send(v, f, c), Send(w, g, d)) => v == w && c == d && SameFrame(f, g)
    case (Call(e), Call(d)) => e == d
    case _ => false
  }

  ghost predicate SameOut(out: seq<R.Out>, other: seq<R.Out>) {
    |out| == |other| && forall k :: 0 <= k < |out| ==> SameCall(out[k], other[k])
  }

  /** The ring holds the same ids, all of them text. */
  ghost predicate SameRing(ring: D.Ring<string>, other: D.Ring<Key>) {
    && ring.capacity == other.capacity && |ring.order| == |other.order|
    && forall k :: 0 <= k < |ring.order| ==> other.order[k] == Value(Some(Str(ring.order[k])))
  }

  /** The closures of every pending request hold the id it was stored for. */
  ghost predicate SameIds(pending: map<string, R.Pending>, captured: map<string, Option<Json>>) {
    forall q :: q in pending ==> q in captured && captured[q] == Some(Str(pending[q].cmdId))
  }

  /** The two relays agree on everything but the wording of what they just sent. */
  ghost predicate Agree(t: R.State, r: State) {
    && t == r.fields.(out := t.out, dedup := t.dedup) && SameOut(t.out, r.fields.out) && r.onWasmHandler
    && SameRing(t.dedup, r.ring) && SameIds(t.pending, r.captured)
  }

  lemma MarkAgrees(ring: D.Ring<string>, other: D.Ring<Key>, id: string)
    requires SameRing(ring, other)
    ensures D.Has(ring, id) <==> D.Has(other, Value(Some(Str(id))))
    ensures SameRing(D.Mark(ring, id), D.Mark(other, Value(Some(Str(id)))))
  {
    if id in ring.order {
      var k :| 0 <= k < |ring.order| && ring.order[k] == id;
      assert other.order[k] == Value(Some(Str(id)));
    } else {
      var marked, otherMarked := ring.order + [id], other.order + [Value(Some(Str(id)))];
      assert forall k :: 0 <= k < |marked| ==> otherMarked[k] == Value(Some(Str(marked[k])));
    }
  }

  lemma IdsShrink(pending: map<string, R.Pending>, captured: map<string, Option<Json>>, gone: set<string>)
    requires SameIds(pending, captured)
    ensures SameIds(pending - gone, captured)
  {
  }

  lemma IdsGrow(pending: map<string, R.Pending>, captured: map<string, Option<Json>>, q: string, p: R.Pending)
    requires SameIds(pending, captured) && q !in pending
    ensures SameIds(pending[q := p], captured[q := Some(Str(p.cmdId))])
  {
  }

  lemma AckFrames(id: string, response: Option<Json>, error: string, other: Option<Json>)
    ensures SameFrame(R.AckOk(id, response), AckFrame(Some(Str(id)), true, Some(response.GetOr(Null)), None, None))
    ensures SameFrame(R.AckErr(id, error), AckFrame(Some(Str(id)), false, None, other, None))
    ensures AckFrame(Some(Str(id)), true, Some(Null), None, Some(true)) == R.AckDuplicate(id)
  {
    AckFrameFields(Some(Str(id)), true, Some(response.GetOr(Null)), None, None);
    AckFrameFields(Some(Str(id)), false, None, other, None);
    AckFields(AckPayload(id, true, None, response, None));
    AckFields(AckPayload(id, false, Some(error), None, None));
    TextAck(id, true, Some(Null), None, Some(true));
  }

  /** With a text id the frame is the one the wire format prescribes. */
  lemma TextAck(id: string, ok: bool, response: Option<Json>, error: Option<string>, duplicate: Option<bool>)
    ensures AckFrame(Some(Str(id)), ok, response, OptStr(error), duplicate)
         == Print(Ack(AckPayload(id, ok, error, response, duplicate)))
  {
    assert map["t" := Str("ack"), "ok" := Bool(ok)] + map["id" := Str(id)]
        == map["t" := Str("ack"), "id" := Str(id), "ok" := Bool(ok)];
  }

  lemma AckFrameFields(id: Option<Json>, ok: bool, response: Option<Json>, error: Option<Json>, duplicate: Option<bool>)
    ensures var j := AckFrame(id, ok, response, error, duplicate);
            && j.Tag() == Some("ack") && j.Get("id") == id && j.Get("ok") == Some(Bool(ok))
            && j.Get("response") == response && j.Get("duplicate") == OptBool(duplicate)
  {
  }

  lemma SendAgrees(t: R.State, r: State, f: Json, g: Json, cause: R.Cause)
    requires Agree(t, r) && SameFrame(f, g)
    ensures Agree(R.WsSend(t, f, cause), WsSend(r, g, cause))
  {
    hide SameFrame, SameRing, SameIds;
  }

  lemma BindAgrees(t: R.State, r: State, onThrows: bool)
    requires Agree(t, r)
    ensures Agree(R.BindCommBus(t, onThrows), BindCommBus(r, onThrows))
  {
    hide Print, SameFrame, SameRing, SameIds, R.WsSend, WsSend;
    var t1 := t.(listeners := t.listeners + 1, commBusBound := true);
    var r1 := r.(fields := r.fields.(listeners := r.fields.listeners + 1, commBusBound := true));
    var ready := Print(ReadyMsg(true));
    assert SameFrame(ready, ready) by { Same(ready); }
    SendAgrees(t1, r1, ready, ready, R.Ready);
  }

  lemma Same(f: Json)
    ensures SameFrame(f, f)
  {
  }

  lemma RetryAgrees(t: R.State, r: State, onThrows: bool)
    requires Agree(t, r)
    ensures Agree(R.BindRetryFires(t, onThrows), BindRetryFires(r, onThrows))
  {
    var t1, r1 := t.(bindRetryTimerId := None), r.(fields := r.fields.(bindRetryTimerId := None));
    BindAgrees(t1, r1, onThrows);
    hide R.BindCommBus, BindCommBus, SameOut, R.ScheduleBindRetry, ScheduleBindRetry;
    ScheduleAgrees(t1, r1);
    ScheduleAgrees(R.BindCommBus(t1, onThrows), BindCommBus(r1, onThrows));
  }

  lemma ScheduleAgrees(t: R.State, r: State)
    requires Agree(t, r)
    ensures Agree(R.ScheduleBindRetry(t), ScheduleBindRetry(r))
  {
    hide SameOut, SameRing, SameIds;
  }

  lemma ConnectAgrees(t: R.State, r: State, ctorThrows: bool)
    requires Agree(t, r)
    ensures Agree(R.ConnectWs(t, ctorThrows), ConnectWs(r, ctorThrows))
  {
    hide SameOut, SameRing, SameIds, R.ScheduleWsReconnect, ScheduleWsReconnect;
    ReconnectAgrees(t.(ws := None), r.(fields := r.fields.(ws := None)));
  }

  lemma ReconnectAgrees(t: R.State, r: State)
    requires Agree(t, r)
    ensures Agree(R.ScheduleWsReconnect(t), ScheduleWsReconnect(r))
  {
    hide SameOut, SameRing, SameIds;
  }

  lemma LoseAgrees(t: R.State, r: State)
    requires Agree(t, r)
    ensures Agree(R.LoseWs(t), LoseWs(r))
  {
    hide SameOut, SameRing, SameIds, R.ScheduleWsReconnect, ScheduleWsReconnect;
    ReconnectAgrees(t.(ws := None), r.(fields := r.fields.(ws := None)));
  }

  lemma OpenAgrees(t: R.State, r: State, clock: int)
    requires Agree(t, r)
    ensures Agree(R.OnOpen(t, clock), OnOpen(r, clock))
  {
    hide Print, SameFrame, SameRing, SameIds, R.WsSend, WsSend, R.HelloFrame;
    var hello, ready := R.HelloFrame(t.cfg, clock), Print(ReadyMsg(t.commBusBound));
    Same(hello);
    Same(ready);
    SendAgrees(t, r, hello, hello, R.Greeting);
    assert R.WsSend(t, hello, R.Greeting).commBusBound == t.commBusBound by { SentBound(t, hello, R.Greeting); }
    SendAgrees(R.WsSend(t, hello, R.Greeting), WsSend(r, hello, R.Greeting), ready, ready, R.Ready);
  }

  lemma SentBound(t: R.State, f: Json, cause: R.Cause)
    ensures R.WsSend(t, f, cause).commBusBound == t.commBusBound
  {
  }

  lemma TakeAgrees(t: R.State, r: State, q: string)
    requires Agree(t, r) && q in t.pending
    ensures Agree(R.ClearTimeout(t.(pending := t.pending - {q}), t.pending[q].timerId), TakePending(r, q))
    ensures IdOf(r, q) == Some(Str(t.pending[q].cmdId)) && IdOf(TakePending(r, q), q) == IdOf(r, q)
  {
    IdsShrink(t.pending, r.captured, {q});
    hide SameOut, SameRing;
  }

  lemma SettleAgrees(t: R.State, r: State, q: string, f: Json, g: Json)
    requires Agree(t, r) && q in t.pending && SameFrame(f, g)
    ensures Agree(R.Settle(t, q, f), WsSend(TakePending(r, q), g, R.Settles(q)))
  {
    PendingAgrees(t, r);
    hide SameFrame, R.WsSend, WsSend, Agree, TakePending;
    TakeAgrees(t, r, q);
    SendAgrees(R.ClearTimeout(t.(pending := t.pending - {q}), t.pending[q].timerId), TakePending(r, q), f, g, R.Settles(q));
  }

  lemma RejectAgrees(t: R.State, r: State, q: string, error: string, other: Option<Json>)
    requires Agree(t, r) && q in t.pending
    ensures Agree(R.Reject(t, q, error), Reject(r, q, other))
  {
    hide SameFrame, R.Settle, TakePending, AckFrame, R.AckErr, SameOut, SameRing, SameIds;
    TakeAgrees(t, r, q);
    AckFrames(t.pending[q].cmdId, None, error, other);
    SettleAgrees(t, r, q, R.AckErr(t.pending[q].cmdId, error), AckFrame(IdOf(r, q), false, None, other, None));
  }

  /** The timer of a pending request, as every live request timer is. */
  lemma TimeoutAgrees(t: R.State, r: State, q: string)
    requires Agree(t, r) && q in t.pending
    ensures Agree(R.RequestTimerFires(t, q, t.pending[q].cmdId), RequestTimerFires(r, q))
  {
    hide SameFrame, AckFrame, R.AckErr, R.WsSend, WsSend, SameOut, SameRing;
    var error := if t.commBusBound then R.TIMED_OUT else R.NOT_BOUND;
    AckFrames(t.pending[q].cmdId, None, error, Some(Str(error)));
    IdsShrink(t.pending, r.captured, {q});
    SendAgrees(t.(pending := t.pending - {q}), r.(fields := r.fields.(pending := r.fields.pending - {q})),
               R.AckErr(t.pending[q].cmdId, error), AckFrame(IdOf(r, q), false, None, Some(Str(error)), None), R.Settles(q));
  }

  lemma CallAgrees(t: R.State, r: State, envelope: Json)
    requires Agree(t, r)
    ensures Agree(t.(out := t.out + [R.Call(envelope)]), CallWasm(r, envelope))
  {
    hide SameFrame, SameRing, SameIds;
  }

  lemma DispatchAgrees(t: R.State, r: State, q: string, cmd: Json, onThrows: bool)
    requires Agree(t, r) && q in t.pending
    ensures Agree(R.Dispatch(t, q, cmd, onThrows), Dispatch(r, q, cmd, onThrows))
  {
    hide SameOut, SameRing, SameIds, R.Reject, Reject, R.BindCommBus, BindCommBus, CallWasm, R.Envelope;
    RejectAgrees(t, r, q, R.NOT_READY, Some(Str(R.NOT_READY)));
    BindAgrees(t, r, onThrows);
    CallAgrees(R.BindCommBus(t, onThrows), BindCommBus(r, onThrows), R.Envelope(q, cmd));
  }

  lemma RegisterAgrees(t: R.State, r: State, id: string, q: string)
    requires Agree(t, r) && q !in t.pending
    ensures Agree(R.Accept(t, id, q), Register(r, Some(Str(id)), q))
  {
    MarkAgrees(t.dedup, r.ring, id);
    IdsGrow(t.pending, r.captured, q, R.Pending(id, t.nextTimer));
    hide SameOut, SameRing, SameIds, D.Mark;
  }

  lemma CommandAgrees(t: R.State, r: State, cmd: Json, clock: int, onThrows: bool)
    requires RI.Consistent(t) && Agree(t, r) && cmd.Get("id").Some? && cmd.Get("id").value.Str?
    ensures Agree(R.OnHostCommand(t, cmd, clock, onThrows), OnHostCommand(r, cmd, clock, onThrows))
  {
    hide SameOut, SameRing, SameIds, SameFrame, R.Dispatch, Dispatch, R.WsSend, WsSend, AckFrame, R.AckDuplicate, D.Has, D.Mark,
      RequestId, R.Accept, Register;
    var id, q := cmd.Get("id").value.s, RequestId(clock, t.requestSeq + 1);
    MarkAgrees(t.dedup, r.ring, id);
    AckFrames(id, None, "", None);
    Same(R.AckDuplicate(id));
    SendAgrees(t, r, R.AckDuplicate(id), AckFrame(Some(Str(id)), true, Some(Null), None, Some(true)), R.Duplicate);
    NextIsNotPending(t, clock);
    RegisterAgrees(t, r, id, q);
    RegisterPends(t, r, id, q);
    DispatchAgrees(R.Accept(t, id, q), Register(r, Some(Str(id)), q), q, cmd, onThrows);
  }

  lemma RegisterPends(t: R.State, r: State, id: string, q: string)
    ensures q in R.Accept(t, id, q).pending && q in Register(r, Some(Str(id)), q).fields.pending
  {
    hide D.Mark;
  }

  lemma NextIsNotPending(t: R.State, clock: int)
    requires RI.Consistent(t)
    ensures RequestId(clock, t.requestSeq + 1) !in t.pending
  {
    hide RequestId, RI.Issued;
    var q := RequestId(clock, t.requestSeq + 1);
    if q in t.pending { RI.NextIdIsFresh(q, t.requestSeq, clock); }
  }

  /** A command says which one it is. */
  predicate NamesCommand(msg: Json) {
    msg.Tag() == Some("cmd") ==> msg.Get("id").Some? && msg.Get("id").value.Str?
  }

  lemma HostAgrees(t: R.State, r: State, msg: Json, clock: int, onThrows: bool)
    requires RI.Consistent(t) && Agree(t, r) && NamesCommand(msg)
    ensures Agree(R.OnHostMessage(t, msg, clock, onThrows), OnHostMessage(r, msg, clock, onThrows))
  {
    hide SameOut, SameRing, SameIds, SameFrame, R.OnHostCommand, OnHostCommand, R.WsSend, WsSend, R.PongFrame, R.Envelope, RequestId, CallWasm;
    Same(R.PongFrame(clock));
    SendAgrees(t, r, R.PongFrame(clock), R.PongFrame(clock), R.Keepalive);
    if msg.Tag() == Some("cmd") { CommandAgrees(t, r, msg, clock, onThrows); }
    CallAgrees(t.(requestSeq := t.requestSeq + 1), r.(fields := r.fields.(requestSeq := r.fields.requestSeq + 1)),
               R.Envelope(RequestId(clock, t.requestSeq + 1), msg));
  }

  /** A message with a text request id says whether it is a success. */
  predicate WellFormed(msg: Json) {
    match msg.Get("requestId")
    case Some(Str(_)) => msg.Get("ok").Some? && msg.Get("ok").value.Bool?
    case _ => true
  }

  lemma ForwardAgrees(t: R.State, r: State, msg: Json)
    requires Agree(t, r) && !(msg.Get("requestId").Some? && msg.Get("requestId").value.Str?)
    ensures Agree(R.OnWasmMessage(t, msg), OnWasmMessage(r, msg))
  {
    hide SameOut, SameRing, SameIds, SameFrame, R.WsSend, WsSend;
    Same(msg);
    SendAgrees(t, r, msg, msg, R.Forwards);
  }

  lemma ResponseAgrees(t: R.State, r: State, msg: Json, q: string)
    requires Agree(t, r) && WellFormed(msg) && msg.Get("requestId") == Some(Str(q)) && q in t.pending
    ensures Agree(R.OnWasmMessage(t, msg), OnWasmMessage(r, msg))
  {
    hide SameOut, SameRing, SameIds, SameFrame, R.Settle, R.Reject, Reject, WsSend, TakePending, AckFrame, R.AckOk, R.ErrorText, R.WASM_ERROR;
    var id := t.pending[q].cmdId;
    TakeAgrees(t, r, q);
    AckFrames(id, msg.Get("response"), "", None);
    SettleAgrees(t, r, q, R.AckOk(id, msg.Get("response")), AckFrame(IdOf(r, q), true, Some(OrNull(msg, "response")), None, None));
    RejectAgrees(t, r, q, R.ErrorText(msg), Some(msg.Get("error").GetOr(Str(R.WASM_ERROR))));
  }

  lemma WasmAgrees(t: R.State, r: State, msg: Json)
    requires Agree(t, r) && WellFormed(msg)
    ensures Agree(R.OnWasmMessage(t, msg), OnWasmMessage(r, msg))
  {
    hide SameOut, SameRing, SameIds;
    match msg.Get("requestId")
    case Some(Str(q)) => if q in t.pending { hide R.OnWasmMessage, OnWasmMessage; ResponseAgrees(t, r, msg, q); }
    case _ => hide R.OnWasmMessage, OnWasmMessage; ForwardAgrees(t, r, msg);
  }

  /** An answer to a pending request is treated alike exactly when its `ok` is a boolean. */
  lemma ResponseAgreesExactly(t: R.State, r: State, msg: Json, q: string)
    requires Agree(t, r) && msg.Get("requestId") == Some(Str(q)) && q in t.pending
    ensures Agree(R.OnWasmMessage(t, msg), OnWasmMessage(r, msg)) <==> msg.Get("ok").Some? && msg.Get("ok").value.Bool?
  {
    if WellFormed(msg) {
      hide R.OnWasmMessage, OnWasmMessage, SameOut;
      WasmAgrees(t, r, msg);
    } else {
      hide SameOut, SameRing, SameIds, R.AckOk;
      assert q !in R.OnWasmMessage(t, msg).pending && q in OnWasmMessage(r, msg).fields.pending;
    }
  }

  lemma {:induction false} RejectAllAgrees(t: R.State, r: State, order: seq<string>)
    requires Agree(t, r) && forall q :: q in order ==> q in t.pending
    ensures Agree(R.RejectAll(t, order), RejectAll(r, order))
    decreases order
  {
    hide SameOut, SameRing, SameIds, SameFrame, R.WsSend, WsSend, AckFrame, R.AckErr;
    if order != [] {
      var p := t.pending[order[0]];
      CapturedId(t, r, order[0]);
      var f, g := R.AckErr(p.cmdId, R.DESTROYED), AckFrame(IdOf(r, order[0]), false, None, Some(Str(R.DESTROYED)), None);
      var t1, r1 := R.ClearTimeout(t, p.timerId), r.(fields := R.ClearTimeout(r.fields, p.timerId));
      AckFrames(p.cmdId, None, R.DESTROYED, Some(Str(R.DESTROYED)));
      SendAgrees(t1, r1, f, g, R.Settles(order[0]));
      SentPending(t1, f, R.Settles(order[0]));
      SentPending(r1.fields, g, R.Settles(order[0]));
      assert WsSend(r1, g, R.Settles(order[0])) == r1.(fields := R.WsSend(r1.fields, g, R.Settles(order[0]))) by { WsSendFields(r1, g, R.Settles(order[0])); }
      RejectAllAgrees(R.WsSend(t1, f, R.Settles(order[0])), WsSend(r1, g, R.Settles(order[0])), order[1..]);
    }
  }

  lemma CapturedId(t: R.State, r: State, q: string)
    requires Agree(t, r) && q in t.pending
    ensures IdOf(r, q) == Some(Str(t.pending[q].cmdId))
  {
  }

  lemma WsSendFields(r: State, g: Json, cause: R.Cause)
    ensures WsSend(r, g, cause) == r.(fields := R.WsSend(r.fields, g, cause))
  {
  }

  lemma SentPending(t: R.State, f: Json, cause: R.Cause)
    ensures R.WsSend(t, f, cause).pending == t.pending
  {
  }

  lemma UnhookAgrees(t: R.State, r: State)
    requires Agree(t, r)
    ensures Agree(R.Unhook(t), Unhook(r).(onWasmHandler := true))
  {
    hide SameOut, SameRing, SameIds;
  }

  lemma CancelAgrees(t: R.State, r: State)
    requires Agree(t, r)
    ensures Agree(R.CancelBindRetry(t), r.(fields := R.CancelBindRetry(r.fields)))
  {
    hide SameOut, SameRing, SameIds;
  }

  lemma CleanupAgrees(t: R.State, r: State)
    requires Agree(t, r)
    ensures Agree(R.CleanupWs(t), r.(fields := R.CleanupWs(r.fields)))
  {
    hide SameOut, SameRing, SameIds, R.CloseSocket;
  }

  lemma UnhookCommutes(t: R.State)
    ensures R.Unhook(R.CancelBindRetry(t)) == R.CancelBindRetry(R.Unhook(t))
  {
  }

  lemma EmptiedAgrees(t: R.State, r: State)
    requires Agree(t, r)
    ensures Agree(t.(pending := map[]), r.(fields := r.fields.(pending := map[])))
  {
    hide SameOut, SameRing;
  }

  /** The last step: the same acks are sent, and afterwards only the stored handler differs. */
  lemma DestroyAgrees(t: R.State, r: State, order: seq<string>)
    requires Agree(t, r) && forall q :: q in order ==> q in t.pending
    ensures Agree(R.Destroy(t, order), Destroy(r, order).(onWasmHandler := true))
  {
    hide Agree, R.RejectAll, RejectAll, R.Unhook, Unhook, R.CancelBindRetry, R.CleanupWs;
    PendingAgrees(t, r);
    RejectAllAgrees(t, r, order);
    var t1, r1 := R.RejectAll(t, order), RejectAll(r, order);
    EmptiedAgrees(t1, r1);
    var t2, r2 := t1.(pending := map[]), r1.(fields := r1.fields.(pending := map[]));
    UnhookAgrees(t2, r2);
    UnhookCommutes(t2);
    var r3 := Unhook(r2).(onWasmHandler := true);
    CancelAgrees(R.Unhook(t2), r3);
    var r4 := r3.(fields := R.CancelBindRetry(r3.fields));
    CleanupAgrees(R.CancelBindRetry(R.Unhook(t2)), r4);
  }

  lemma PendingAgrees(t: R.State, r: State)
    requires Agree(t, r)
    ensures t.pending == r.fields.pending
  {
  }

  /** How the TypeScript `destroy` ends, given whether the handle's `unregister` throws. */
  function Destroyed(t: R.State, order: seq<string>, unregisterThrows: bool): R.State
    requires forall q :: q in order ==> q in t.pending
  {
    if unregisterThrows && t.commBus then R.DestroyAborted(t, order) else R.Destroy(t, order)
  }

  lemma RejectAllKeeps(t: R.State, order: seq<string>)
    requires forall q :: q in order ==> q in t.pending
    ensures R.RejectAll(t, order).commBus == t.commBus
  {
    RI.RejectAllEffect(t, order);
  }

  /**
   * The same acks are sent whether or not `unregister` throws. The relays end up alike exactly when
   * it does not, or there is nothing to unregister: ReScript ignores its exception, in TypeScript it
   * ends `destroy`, and handle and socket stay.
   */
  lemma DestroyAgreesExactly(t: R.State, r: State, order: seq<string>, unregisterThrows: bool)
    requires Agree(t, r) && forall q :: q in order ==> q in t.pending
    ensures Destroyed(t, order, unregisterThrows).out == R.RejectAll(t, order).out
    ensures SameOut(R.RejectAll(t, order).out, RejectAll(r, order).fields.out)
    ensures Agree(Destroyed(t, order, unregisterThrows), Destroy(r, order).(onWasmHandler := true))
       <==> !unregisterThrows || !t.commBus
  {
    PendingAgrees(t, r);
    RejectAllAgrees(t, r, order);
    RejectAllKeeps(t, order);
    DestroyAgrees(t, r, order);
    hide R.RejectAll, RejectAll, SameOut, SameRing, SameIds, R.CloseSocket;
    assert !R.Destroy(t, order).commBus;
    assert t.commBus ==> R.DestroyAborted(t, order).commBus;
  }

  /** After `destroy` they part ways: a late continuation binds the TypeScript relay only. */
  lemma LateContinuation(t: R.State, r: State, order: seq<string>)
    requires Agree(t, r) && forall q :: q in order ==> q in t.pending
    ensures var t', r' := R.BindCommBus(R.Destroy(t, order), false), BindCommBus(Destroy(r, order), false);
            t'.commBusBound && !r'.fields.commBusBound
  {
    hide R.RejectAll, RejectAll, SameOut, Print, R.CloseSocket;
  }

  lemma TimerAgrees(t: R.State, r: State, i: R.Input, thrown: Option<string>)
    requires RI.Consistent(t) && Agree(t, r) && i.TimerFires? && R.Enabled(t, i)
    ensures Agree(R.Handle(t, i), Handle(r, i, thrown))
  {
    if t.timers[i.timer].kind.RequestTimeout? { assert RI.HasRequest(t, i.timer); }
    hide SameOut, SameRing, SameIds, R.RequestTimerFires, RequestTimerFires, R.BindRetryFires, BindRetryFires, R.ConnectWs, ConnectWs,
      RI.Consistent;
    var t1, r1 := R.ClearTimeout(t, i.timer), r.(fields := R.ClearTimeout(r.fields, i.timer));
    match t.timers[i.timer].kind
    case RequestTimeout(q, c) => TimeoutAgrees(t1, r1, q);
    case BindRetry => RetryAgrees(t1, r1, i.onThrows);
    case Reconnect =>
      ConnectAgrees(t1.(wsRetryTimerId := None), r1.(fields := r1.fields.(wsRetryTimerId := None)), i.ctorThrows);
  }

  /** Commands that say which one they are, and answers that say whether they are a success. */
  predicate Usual(i: R.Input) {
    && (i.HostSends? ==> NamesCommand(i.msg))
    && (i.WasmSends? ==> WellFormed(i.msg))
  }

  lemma HandleAgrees(t: R.State, r: State, i: R.Input, thrown: Option<string>)
    requires RI.Consistent(t) && Agree(t, r) && R.Enabled(t, i) && Usual(i) && !i.Destroyed?
    ensures R.Enabled(r.fields, i) && Agree(R.Handle(t, i), Handle(r, i, thrown))
  {
    hide SameOut, SameRing, SameIds, R.BindCommBus, BindCommBus, R.OnOpen, OnOpen, R.LoseWs, LoseWs, R.OnHostMessage,
      OnHostMessage, R.OnWasmMessage, OnWasmMessage, R.Reject, Reject, WellFormed, NamesCommand, RI.Consistent;
    match i
    case Continuation(onThrows) => BindAgrees(t, r, onThrows);
    case TimerFires(_, _, _) => hide R.Handle, Handle; TimerAgrees(t, r, i, thrown);
    case SocketOpens(k, clock) =>
      OpenAgrees(t.(sockets := t.sockets[k := R.Open]), r.(fields := r.fields.(sockets := r.fields.sockets[k := R.Open])), clock);
    case SocketChanges(_, _) =>
    case SocketErrors(_) => LoseAgrees(t, r);
    case SocketCloses(_) => LoseAgrees(t, r);
    case HostSends(_, msg, clock, onThrows) => HostAgrees(t, r, msg, clock, onThrows);
    case WasmSends(msg) => WasmAgrees(t, r, msg);
    case CallRejects(q, reason) =>
      if q in t.pending { RejectAgrees(t, r, q, reason, Some(Str(thrown.GetOr("unknown")))); }
    case TimePasses(_) =>
  }

  lemma ClearedAgrees(t: R.State, r: State, i: R.Input)
    requires RI.Consistent(t) && Agree(t, r) && R.Enabled(t, i)
    ensures Agree(t.(out := []), r.(fields := r.fields.(out := []))) && R.Enabled(t.(out := []), i) && R.Enabled(r.fields, i)
    ensures RI.Consistent(t.(out := []))
  {
    RI.ConsistentFrame(t, t.(out := []));
    hide SameRing, SameIds, RI.Consistent;
  }

  /** One event: both relays take the same step, and what they send differs at most in wording. */
  lemma StepAgrees(t: R.State, r: State, i: R.Input, thrown: Option<string>)
    requires RI.Consistent(t) && Agree(t, r) && R.Enabled(t, i) && Usual(i) && !i.Destroyed?
    ensures R.Enabled(r.fields, i) && Agree(R.Step(t, i), Step(r, i, thrown))
  {
    hide Agree, R.Handle, Handle, R.Enabled, Usual, RI.Consistent;
    ClearedAgrees(t, r, i);
    HandleAgrees(t.(out := []), r.(fields := r.fields.(out := [])), i, thrown);
  }

  lemma DispatchMoves(r: State, q: string, cmd: Json, onThrows: bool)
    requires q in r.fields.pending
    ensures Dispatch(r, q, cmd, onThrows).fields.requestSeq == r.fields.requestSeq
  {
    hide AckFrame, R.Envelope, Print;
  }

  lemma UnnamedMoves(r: State, cmd: Json, clock: int, onThrows: bool)
    ensures var r' := OnHostCommand(r, cmd, clock, onThrows);
            |r'.fields.out| > |r.fields.out| || r'.fields.requestSeq == r.fields.requestSeq + 1
  {
    var id, q := cmd.Get("id"), NextRequestId(r, clock);
    hide D.Has, D.Mark, AckFrame, NextRequestId, Dispatch;
    DispatchMoves(Register(r, id, q), q, cmd, onThrows);
  }

  /**
   * A command is treated alike exactly when its id is text: TypeScript ignores any other, ReScript
   * acknowledges or forwards it.
   */
  lemma CommandAgreesExactly(t: R.State, r: State, cmd: Json, clock: int, onThrows: bool)
    requires RI.Consistent(t) && Agree(t, r) && cmd.Tag() == Some("cmd")
    ensures Agree(R.OnHostMessage(t, cmd, clock, onThrows), OnHostMessage(r, cmd, clock, onThrows))
       <==> cmd.Get("id").Some? && cmd.Get("id").value.Str?
  {
    if cmd.Get("id").Some? && cmd.Get("id").value.Str? {
      hide R.OnHostMessage, OnHostMessage, Agree;
      HostAgrees(t, r, cmd, clock, onThrows);
    } else {
      UnnamedMoves(r, cmd, clock, onThrows);
      hide OnHostCommand, SameRing, SameIds;
      assert R.OnHostMessage(t, cmd, clock, onThrows) == t;
    }
  }

  function Fresh(cfg: R.Config, capacity: nat): State {
    State(R.Fresh(cfg, capacity), false, D.Ring([], capacity), map[])
  }

  lemma InitAgrees(cfg: R.Config, capacity: nat, ctorThrows: bool, onThrows: bool)
    ensures Agree(R.Init(R.Fresh(cfg, capacity), ctorThrows, onThrows), Init(Fresh(cfg, capacity), ctorThrows, onThrows))
  {
    hide Agree, R.ConnectWs, ConnectWs, R.BindCommBus, BindCommBus, R.ScheduleBindRetry, ScheduleBindRetry;
    var t0, r0 := R.Fresh(cfg, capacity), Fresh(cfg, capacity).(onWasmHandler := true);
    assert Agree(t0, r0) by { FreshAgrees(t0, r0); }
    ConnectAgrees(t0, r0, ctorThrows);
    ConnectHandler(Fresh(cfg, capacity), ctorThrows);
    var t1, r1 := R.ConnectWs(t0, ctorThrows), ConnectWs(r0, ctorThrows);
    HandleArrives(t1, r1);
    var t2, r2 := t1.(commBus := true), r1.(fields := r1.fields.(commBus := true));
    BindAgrees(t2, r2, onThrows);
    ScheduleAgrees(R.BindCommBus(t2, onThrows), BindCommBus(r2, onThrows));
  }

  lemma FreshAgrees(t: R.State, r: State)
    requires t == r.fields && t.out == [] && t.pending == map[] && r.onWasmHandler
    requires t.dedup.order == [] && r.ring == D.Ring([], t.dedup.capacity)
    ensures Agree(t, r)
  {
  }

  lemma HandleArrives(t: R.State, r: State)
    requires Agree(t, r)
    ensures Agree(t.(commBus := true), r.(fields := r.fields.(commBus := true)))
  {
    hide SameOut, SameRing, SameIds;
  }

  lemma ConnectHandler(r: State, ctorThrows: bool)
    ensures ConnectWs(r, ctorThrows).(onWasmHandler := true) == ConnectWs(r.(onWasmHandler := true), ctorThrows)
  {
  }

  /** A run of both relays on the same events; `thrown` is what each rejected call was rejected with. */
  ghost predicate Lockstep(run: seq<R.State>, other: seq<State>, inputs: seq<R.Input>, thrown: seq<Option<string>>) {
    && |run| == |inputs| + 1 && |other| == |run| && |thrown| == |inputs|
    && (exists cfg, capacity, ctorThrows, onThrows ::
          run[0] == R.Init(R.Fresh(cfg, capacity), ctorThrows, onThrows)
          && other[0] == Init(Fresh(cfg, capacity), ctorThrows, onThrows))
    && (forall k :: 0 <= k < |inputs| ==>
          && Usual(inputs[k]) && !inputs[k].Destroyed?
          && R.Enabled(run[k], inputs[k]) && run[k + 1] == R.Step(run[k], inputs[k])
          && (R.Enabled(other[k].fields, inputs[k]) ==> other[k + 1] == Step(other[k], inputs[k], thrown[k])))
  }

  /**
   * From `init` on, in every run before `destroy`, the ReScript relay can take every step the
   * TypeScript one takes, both are in the same state, and the frames of each step agree one by one:
   * same socket, and for acks the same id, ok, duplicate and response.
   */
  lemma {:induction false} RelaysAgree(
    run: seq<R.State>, other: seq<State>, inputs: seq<R.Input>, thrown: seq<Option<string>>, k: nat)
    requires Lockstep(run, other, inputs, thrown) && k < |run|
    ensures Agree(run[k], other[k]) && RI.Consistent(run[k])
    ensures k < |inputs| ==> R.Enabled(other[k].fields, inputs[k])
  {
    if k == 0 {
      var cfg, capacity, ctorThrows, onThrows :|
        run[0] == R.Init(R.Fresh(cfg, capacity), ctorThrows, onThrows)
        && other[0] == Init(Fresh(cfg, capacity), ctorThrows, onThrows);
      InitAgrees(cfg, capacity, ctorThrows, onThrows);
      RI.InitNeverStranded(cfg, capacity, ctorThrows, onThrows);
    } else {
      RelaysAgree(run, other, inputs, thrown, k - 1);
      hide Agree, R.Enabled, R.Step, Step, Usual, R.Init, Init, RI.Consistent;
      StepAgrees(run[k - 1], other[k - 1], inputs[k - 1], thrown[k - 1]);
      RI.StepConsistent(run[k - 1], inputs[k - 1]);
    }
    hide Agree, R.Enabled, R.Step, Step, R.Init, Init, RI.Consistent;
    if k < |inputs| { StepAgrees(run[k], other[k], inputs[k], thrown[k]); }
  }

  /** Everything a Bridge sends is among the messages compared. */
  lemma BridgeIsUsual(q: string, answer: W.Answer, e: EventPayload)
    ensures Usual(R.WasmSends(W.Response(q, answer))) && Usual(R.WasmSends(Print(Event(e))))
  {
    W.ResponseFields(q, answer);
    assert Print(Event(e)).Get("requestId") == None;
    hide W.Response, Print;
  }

  /** So is everything the host sends: commands, events and probes. */
  lemma HubIsUsual(c: Hub.Call, e: EventPayload, ts: Option<U64>, k: R.SocketId, clock: int, onThrows: bool)
    ensures Usual(R.HostSends(k, Hub.CmdFrame(c), clock, onThrows))
    ensures Usual(R.HostSends(k, Print(Event(e)), clock, onThrows))
    ensures Usual(R.HostSends(k, Print(Ping(ts)), clock, onThrows)) && Usual(R.HostSends(k, Print(Pong(ts)), clock, onThrows))
  {
    assert Hub.CmdFrame(c).Get("id") == Some(Str(c.id));
    assert Print(Event(e)).Tag() == Some("event") && Print(Ping(ts)).Tag() == Some("ping") && Print(Pong(ts)).Tag() == Some("pong");
    hide Print, Hub.CmdFrame;
  }

  /** The host gets the same outcome for its command from either ack. */
  lemma HostCannotTell(id: string, response: Option<Json>, error: string, other: string)
    ensures var m := Parse(R.AckOk(id, response));
            var n := Parse(AckFrame(Some(Str(id)), true, Some(response.GetOr(Null)), None, None));
            m.Some? && m.value.Ack? && n.Some? && n.value.Ack? && Hub.OutcomeOf(m.value.ack) == Hub.OutcomeOf(n.value.ack)
    ensures var m, n := Parse(R.AckErr(id, error)), Parse(AckFrame(Some(Str(id)), false, None, Some(Str(other)), None));
            m.Some? && m.value.Ack? && n.Some? && n.value.Ack?
            && Hub.OutcomeOf(m.value.ack) == Hub.Failed(Hub.Application, error)
            && Hub.OutcomeOf(n.value.ack) == Hub.Failed(Hub.Application, other)
  {
    TextAck(id, true, Some(response.GetOr(Null)), None, None);
    TextAck(id, false, None, Some(other), None);
    hide Print, Parse, AckFrame;
    AckRoundTrip(AckPayload(id, true, None, response, None));
    AckRoundTrip(AckPayload(id, true, None, Some(response.GetOr(Null)), None));
    AckRoundTrip(AckPayload(id, false, Some(error), None, None));
    AckRoundTrip(AckPayload(id, false, Some(other), None, None));
  }
}
