/**
 * The ReScript relay (rescript/infinity-bridge-relay/src/BridgeRelay.res) as the mutable record it
 * is. Every function on the record is proved to take it from one state of the module RescriptRelay
 * to the next.
 */
module RescriptObject {
  import opened Base
  import opened Json
  import opened Wire
  import opened RequestIds
  import D = Dedup
  import R = Relay
  import E = RelayEffects
  import RI = RelayInvariants
  import V = RescriptRelay
  import O = RelayObject

  class Relay {
    const cfg: R.Config
    const dedup: D.DedupRing<V.Key>
    const browser: O.Browser
    var commBus: bool
    var commBusBound: bool
    var bindRetryTimerId: Option<R.TimerId>
    var ws: Option<R.SocketId>
    var wsRetryTimerId: Option<R.TimerId>
    var pending: map<string, R.Pending>
    var requestSeq: nat
    var onWasmHandler: bool
    var captured: map<string, Option<Json>>   // the ids that the closures of the requests hold

    ghost predicate Valid()
      reads this, dedup
    {
      dedup.Valid()
    }

    ghost function State(): V.State
      reads this, dedup, browser
    {
      V.State(
        R.State(cfg, commBus, commBusBound, bindRetryTimerId, ws, wsRetryTimerId, pending, requestSeq,
                D.Ring([], dedup.capacity),
                browser.listeners, browser.timers, browser.nextTimer, browser.sockets, browser.now, browser.out),
        onWasmHandler, dedup.State(), captured)
    }

    constructor Make(cfg: R.Config, capacity: nat)
      ensures Valid() && State() == V.Fresh(cfg, capacity) && fresh(dedup) && fresh(browser)
    {
      this.cfg := cfg;
      this.dedup := new D.DedupRing<V.Key>(capacity);
      this.browser := new O.Browser();
      commBus, commBusBound, bindRetryTimerId, onWasmHandler := false, false, None, false;
      ws, wsRetryTimerId, pending, requestSeq, captured := None, None, map[], 0, map[];
    }

    // ---- Sending ----

    method WsSend(frame: Json, cause: R.Cause)
      modifies browser`out
      ensures State() == V.WsSend(old(State()), frame, cause)
    {
      var open := ws.Some? && ws.value < |browser.sockets| && browser.sockets[ws.value] == R.Open;
      browser.Record(R.Send(if open then ws else None, frame, cause));
    }

    method SendAck(id: Option<Json>, ok: bool, response: Option<Json>, error: Option<Json>, duplicate: Option<bool>, cause: R.Cause)
      modifies browser`out
      ensures State() == V.SendAck(old(State()), id, ok, response, error, duplicate, cause)
    {
      hide V.WsSend;
      WsSend(V.AckFrame(id, ok, response, error, duplicate), cause);
    }

    method SendReady()
      modifies browser`out
      ensures State() == V.SendReady(old(State()))
    {
      WsSend(Print(ReadyMsg(commBusBound)), R.Ready);
    }

    // ---- CommBus ----

    method BindCommBus(onThrows: bool)
      modifies this`commBusBound, browser`listeners, browser`out
      ensures State() == V.BindCommBus(old(State()), onThrows)
    {
      hide V.SendReady;
      if !commBusBound {
        if onWasmHandler && !onThrows {
          browser.listeners := browser.listeners + 1;
          commBusBound := true;
          SendReady();
        }
      }
    }

    method ScheduleBindRetry()
      modifies this`bindRetryTimerId, browser`timers, browser`nextTimer
      ensures State() == V.ScheduleBindRetry(old(State()))
    {
      if !commBusBound && bindRetryTimerId.None? {
        var timer := browser.SetTimeout(R.BindRetry, cfg.bindRetryMs);
        bindRetryTimerId := Some(timer);
      }
    }

    method OnBindRetry(onThrows: bool)
      modifies this`commBusBound, this`bindRetryTimerId, browser
      ensures State() == V.BindRetryFires(old(State()), onThrows)
      ensures commBusBound == (old(commBusBound) || (commBus && onWasmHandler && !onThrows))
      ensures if commBusBound then bindRetryTimerId == None && browser.timers == old(browser.timers)
              else && bindRetryTimerId == Some(old(browser.nextTimer))
                   && browser.timers == old(browser.timers)[old(browser.nextTimer) := R.Timer(R.BindRetry, browser.now + cfg.bindRetryMs)]
    {
      RetryEffect(State(), onThrows);
      hide V.BindCommBus, V.ScheduleBindRetry;
      bindRetryTimerId := None;
      if commBus {
        BindCommBus(onThrows);
      }
      ScheduleBindRetry();
    }

    // ---- Connection ----

    method ScheduleWsReconnect()
      modifies this`wsRetryTimerId, browser`timers, browser`nextTimer
      ensures State() == V.ScheduleWsReconnect(old(State()))
    {
      if wsRetryTimerId.None? {
        var timer := browser.SetTimeout(R.Reconnect, cfg.reconnectMs);
        wsRetryTimerId := Some(timer);
      }
    }

    method ConnectWs(ctorThrows: bool)
      modifies this`ws, this`wsRetryTimerId, browser
      ensures State() == V.ConnectWs(old(State()), ctorThrows)
    {
      hide V.ScheduleWsReconnect;
      var alreadyActive := ws.Some? && ws.value < |browser.sockets|
                           && (browser.sockets[ws.value] == R.Open || browser.sockets[ws.value] == R.Connecting);
      if !alreadyActive {
        var socket := browser.NewWebSocket(ctorThrows);
        ws := socket;
        if socket.None? {
          ScheduleWsReconnect();
        }
      }
    }

    method OnSocketLost()
      modifies this`ws, this`wsRetryTimerId, browser`timers, browser`nextTimer
      ensures State() == V.LoseWs(old(State()))
    {
      hide V.ScheduleWsReconnect;
      ws := None;
      ScheduleWsReconnect();
    }

    method OnReconnect(ctorThrows: bool)
      modifies this`ws, this`wsRetryTimerId, browser
      ensures var was := old(State());
              State() == V.ConnectWs(was.(fields := was.fields.(wsRetryTimerId := None)), ctorThrows)
    {
      hide V.ConnectWs;
      wsRetryTimerId := None;
      ConnectWs(ctorThrows);
    }

    method OnOpen(clock: int)
      modifies browser`out
      ensures State() == V.OnOpen(old(State()), clock)
    {
      WsSend(R.HelloFrame(cfg, clock), R.Greeting);
      SendReady();
    }

    method Init(ctorThrows: bool, onThrows: bool)
      modifies this, browser
      ensures State() == V.Init(old(State()), ctorThrows, onThrows)
    {
      hide V.ConnectWs, V.BindCommBus, V.ScheduleBindRetry;
      ConnectWs(ctorThrows);
      onWasmHandler := true;
      commBus := true;
      BindCommBus(onThrows);
      ScheduleBindRetry();
    }

    // ---- Requests ----

    method NextRequestId(clock: int) returns (id: string)
      modifies this`requestSeq
      ensures requestSeq == old(requestSeq) + 1 && id == V.NextRequestId(old(State()), clock)
    {
      requestSeq := requestSeq + 1;
      id := RequestId(clock, requestSeq);
    }

    method TakePending(q: string)
      requires q in pending
      modifies this`pending, browser`timers
      ensures State() == V.TakePending(old(State()), q)
    {
      var p := pending[q];
      pending := pending - {q};
      browser.ClearTimeout(p.timerId);
    }

    /** The id that the closures of the request hold. */
    method IdOf(q: string) returns (id: Option<Json>)
      ensures id == V.IdOf(State(), q)
    {
      id := if q in captured then captured[q] else None;
    }

    method Reject(q: string, error: Option<Json>)
      requires q in pending
      modifies this`pending, browser`timers, browser`out
      ensures State() == V.Reject(old(State()), q, error)
    {
      hide V.TakePending, V.SendAck;
      var id := IdOf(q);
      TakePending(q);
      SendAck(id, false, None, error, None, R.Settles(q));
    }

    method OnRequestTimeout(q: string)
      modifies this`pending, browser`out
      ensures State() == V.RequestTimerFires(old(State()), q)
    {
      hide V.SendAck;
      var id := IdOf(q);
      pending := pending - {q};
      SendAck(id, false, None, Some(Str(if commBusBound then R.TIMED_OUT else R.NOT_BOUND)), None, R.Settles(q));
    }

    method OnCallRejected(q: string, thrown: Option<string>)
      modifies this`pending, browser`timers, browser`out
      ensures State() == V.CallRejected(old(State()), q, thrown)
    {
      hide V.Reject;
      if q in pending {
        Reject(q, Some(Str(thrown.GetOr("unknown"))));
      }
    }

    method Register(id: Option<Json>, clock: int) returns (q: string)
      requires Valid()
      modifies this`requestSeq, this`pending, this`captured, dedup, browser`timers, browser`nextTimer
      ensures Valid() && q == V.NextRequestId(old(State()), clock)
      ensures State() == V.Register(old(State()), id, q) && q in pending
    {
      hide D.Mark, RequestId, V.KeyOf;
      dedup.MarkId(V.KeyOf(id, requestSeq + 1));
      q := NextRequestId(clock);
      var timer := browser.SetTimeout(R.RequestTimeout(q, V.Label(id)), cfg.requestTimeoutMs);
      pending := pending[q := R.Pending(V.Label(id), timer)];
      captured := captured[q := id];
    }

    method Dispatch(q: string, cmd: Json, onThrows: bool)
      requires q in pending
      modifies this`pending, this`commBusBound, browser
      ensures State() == V.Dispatch(old(State()), q, cmd, onThrows)
    {
      hide V.Reject, V.BindCommBus, R.Envelope;
      if !commBus {
        Reject(q, Some(Str(R.NOT_READY)));
      } else {
        BindCommBus(onThrows);
        browser.Record(R.Call(R.Envelope(q, cmd)));
      }
    }

    method OnHostCommand(cmd: Json, clock: int, onThrows: bool)
      requires Valid()
      modifies this, dedup, browser
      ensures Valid() && State() == V.OnHostCommand(old(State()), cmd, clock, onThrows)
    {
      hide V.Register, V.Dispatch, V.SendAck, D.Has, RequestId, V.KeyOf;
      var id := cmd.Get("id");
      var seen := dedup.IsMarked(V.KeyOf(id, requestSeq + 1));
      if seen {
        SendAck(id, true, Some(Null), None, Some(true), R.Duplicate);
      } else {
        var q := Register(id, clock);
        Dispatch(q, cmd, onThrows);
      }
    }

    method OnHostEvent(event: Json, clock: int)
      modifies this`requestSeq, browser`out
      ensures State() == V.OnHostEvent(old(State()), event, clock)
    {
      hide R.Envelope, RequestId;
      if commBus {
        var q := NextRequestId(clock);
        browser.Record(R.Call(R.Envelope(q, event)));
      }
    }

    method OnHostMessage(msg: Json, clock: int, onThrows: bool)
      requires Valid()
      modifies this, dedup, browser
      ensures Valid() && State() == V.OnHostMessage(old(State()), msg, clock, onThrows)
      ensures msg.Tag() == Some("ping") ==>
                browser.out == old(browser.out)
                  + [R.Send(E.Line(old(State()).fields), Obj(map["t" := Str("pong"), "ts" := Int(clock)]), R.Keepalive)]
    {
      PingEffect(State(), msg, clock, onThrows);
      hide V.OnHostCommand, V.OnHostEvent, V.WsSend, R.PongFrame, V.ParseWireMsg;
      var t := V.ParseWireMsg(msg);
      if t == Some("ping") {
        WsSend(R.PongFrame(clock), R.Keepalive);
      } else if t == Some("cmd") {
        OnHostCommand(msg, clock, onThrows);
      } else if t == Some("event") {
        OnHostEvent(msg, clock);
      }
    }

    method OnWasmMessage(msg: Json)
      modifies this`pending, browser`timers, browser`out
      ensures State() == V.OnWasmMessage(old(State()), msg)
    {
      hide V.Reject, V.WsSend, V.TakePending, V.AckFrame, V.ParseWireMsg, V.ParseCommBusResponse;
      match V.ParseCommBusResponse(msg) {
        case Some(resp) =>
          if resp.requestId in pending {
            if resp.ok {
              var id := IdOf(resp.requestId);
              TakePending(resp.requestId);
              SendAck(id, true, Some(resp.response.GetOr(Null)), None, None, R.Settles(resp.requestId));
            } else {
              Reject(resp.requestId, Some(resp.error.GetOr(Str(R.WASM_ERROR))));
            }
          }
        case None =>
          var t := V.ParseWireMsg(msg);
          if t == Some("event") || t == Some("ack") {
            WsSend(msg, R.Forwards);
          }
      }
    }

    // ---- Teardown ----

    method RejectPending() returns (ghost order: seq<string>)
      modifies browser`timers, browser`out
      ensures Distinct(order) && forall q :: q in order <==> q in pending
      ensures State() == V.RejectAll(old(State()), order)
    {
      hide V.RejectAll, V.SendAck;
      order := [];
      var todo := pending.Keys;
      RejectNone(State());
      while todo != {}
        invariant todo <= pending.Keys
        invariant Distinct(order) && forall q :: q in order <==> q in pending && q !in todo
        invariant State() == V.RejectAll(old(State()), order)
        decreases |todo|
      {
        var q :| q in todo;
        todo := todo - {q};
        RejectOneMore(old(State()), order, q);
        order := order + [q];
        var p := pending[q];
        browser.ClearTimeout(p.timerId);
        var id := IdOf(q);
        SendAck(id, false, None, Some(Str(R.DESTROYED)), None, R.Settles(q));
      }
    }

    method CancelTimers()
      modifies this`bindRetryTimerId, this`wsRetryTimerId, this`ws, browser`timers, browser`sockets
      ensures State() == old(State()).(fields := R.CleanupWs(R.CancelBindRetry(old(State()).fields)))
    {
      if bindRetryTimerId.Some? {
        browser.ClearTimeout(bindRetryTimerId.value);
      }
      bindRetryTimerId := None;
      if wsRetryTimerId.Some? {
        browser.ClearTimeout(wsRetryTimerId.value);
      }
      wsRetryTimerId := None;
      if ws.Some? && ws.value < |browser.sockets| && browser.sockets[ws.value] != R.Closed {
        browser.sockets := browser.sockets[ws.value := R.Closing];
      }
      ws := None;
    }

    method Destroy() returns (ghost order: seq<string>)
      modifies this, browser
      ensures Distinct(order) && forall q :: q in order <==> q in old(pending)
      ensures State() == V.Destroy(old(State()), order)
    {
      hide V.RejectAll, R.CleanupWs, R.CancelBindRetry;
      order := RejectPending();
      pending := map[];
      if commBus && onWasmHandler && browser.listeners > 0 {
        browser.listeners := browser.listeners - 1;
      }
      commBus, commBusBound, onWasmHandler := false, false, false;
      CancelTimers();
    }

    // ---- Events ----

    method OnTimer(t: R.TimerId, onThrows: bool, ctorThrows: bool, ghost thrown: Option<string>)
      requires R.Enabled(State().fields, R.TimerFires(t, onThrows, ctorThrows))
      modifies this, browser
      ensures State() == V.Handle(old(State()), R.TimerFires(t, onThrows, ctorThrows), thrown)
    {
      hide V.RequestTimerFires, V.BindRetryFires, V.ConnectWs;
      var kind := browser.timers[t].kind;
      browser.ClearTimeout(t);
      match kind {
        case RequestTimeout(requestId, _) => OnRequestTimeout(requestId);
        case BindRetry => OnBindRetry(onThrows);
        case Reconnect => OnReconnect(ctorThrows);
      }
    }

    method OnSocket(i: R.Input, ghost thrown: Option<string>)
      requires R.Enabled(State().fields, i) && (i.SocketOpens? || i.SocketChanges? || i.SocketErrors? || i.SocketCloses?)
      modifies this`ws, this`wsRetryTimerId, browser
      ensures State() == V.Handle(old(State()), i, thrown)
    {
      hide V.OnOpen, V.LoseWs;
      match i {
        case SocketOpens(k, clock) =>
          browser.sockets := browser.sockets[k := R.Open];
          OnOpen(clock);
        case SocketChanges(k, to) => browser.sockets := browser.sockets[k := to];
        case SocketErrors(_) => OnSocketLost();
        case SocketCloses(_) => OnSocketLost();
      }
    }

    method ReactTo(i: R.Input, thrown: Option<string>)
      requires Valid() && R.Enabled(State().fields, i) && !i.Destroyed?
      modifies this, dedup, browser
      ensures Valid() && State() == V.Handle(old(State()), i, thrown)
    {
      hide V.BindCommBus, V.OnHostMessage, V.OnWasmMessage, V.CallRejected;
      match i {
        case Continuation(onThrows) => BindCommBus(onThrows);
        case TimerFires(t, onThrows, ctorThrows) => hide V.Handle; OnTimer(t, onThrows, ctorThrows, thrown);
        case SocketOpens(_, _) => hide V.Handle; OnSocket(i, thrown);
        case SocketChanges(_, _) => hide V.Handle; OnSocket(i, thrown);
        case SocketErrors(_) => hide V.Handle; OnSocket(i, thrown);
        case SocketCloses(_) => hide V.Handle; OnSocket(i, thrown);
        case HostSends(_, msg, clock, onThrows) => OnHostMessage(msg, clock, onThrows);
        case WasmSends(msg) => OnWasmMessage(msg);
        case CallRejects(requestId, _) => OnCallRejected(requestId, thrown);
        case TimePasses(ms) => browser.now := browser.now + ms;
      }
    }

    /** Any event but `destroy`. */
    method React(i: R.Input, thrown: Option<string>)
      requires Valid() && R.Enabled(State().fields, i) && !i.Destroyed?
      modifies this, dedup, browser
      ensures Valid() && State() == V.Step(old(State()), i, thrown)
    {
      hide V.Handle;
      browser.out := [];
      assert State() == old(State()).(fields := old(State()).fields.(out := []));
      ReactTo(i, thrown);
    }
  }

  /** Both relays in one place: given the same event, they stay in agreement. */
  method ReactBoth(t: O.BridgeRelay, r: Relay, i: R.Input, thrown: Option<string>)
    requires t.Valid() && r.Valid() && t.browser != r.browser
    requires RI.Consistent(t.State()) && V.Agree(t.State(), r.State())
    requires R.Enabled(t.State(), i) && V.Usual(i) && !i.Destroyed?
    modifies t, t.dedup, t.browser, r, r.dedup, r.browser
    ensures t.Valid() && r.Valid()
    ensures RI.Consistent(t.State()) && V.Agree(t.State(), r.State())
    ensures t.State() == R.Step(old(t.State()), i)
  {
    hide RI.Consistent, V.Agree, R.Enabled, V.Usual, R.Step, V.Step;
    V.StepAgrees(t.State(), r.State(), i, thrown);
    RI.StepConsistent(t.State(), i);
    ghost var done := t.React(i);
    r.React(i, thrown);
  }

  /** From construction on they agree, whatever happens in between. */
  method InitBoth(cfg: R.Config, capacity: nat, ctorThrows: bool, onThrows: bool)
    returns (t: O.BridgeRelay, r: Relay)
    ensures fresh(t) && fresh(t.dedup) && fresh(t.browser) && fresh(r) && fresh(r.dedup) && fresh(r.browser)
    ensures t.Valid() && r.Valid() && t.browser != r.browser
    ensures RI.Consistent(t.State()) && RI.NeverStranded(t.State()) && V.Agree(t.State(), r.State())
  {
    hide RI.Consistent, RI.NeverStranded, V.Agree, R.Init, V.Init;
    t := new O.BridgeRelay(cfg, capacity);
    r := new Relay.Make(cfg, capacity);
    t.Init(ctorThrows, onThrows);
    r.Init(ctorThrows, onThrows);
    V.InitAgrees(cfg, capacity, ctorThrows, onThrows);
    RI.InitNeverStranded(cfg, capacity, ctorThrows, onThrows);
  }

  lemma RetryEffect(s: V.State, onThrows: bool)
    ensures var f, r := s.fields, V.BindRetryFires(s, onThrows).fields;
            && r.commBusBound == (f.commBusBound || (f.commBus && s.onWasmHandler && !onThrows))
            && if r.commBusBound then r.bindRetryTimerId == None && r.timers == f.timers
               else && r.bindRetryTimerId == Some(f.nextTimer)
                    && r.timers == f.timers[f.nextTimer := R.Timer(R.BindRetry, f.now + f.cfg.bindRetryMs)]
  {
    hide Print;
  }

  lemma PingEffect(s: V.State, msg: Json, clock: int, onThrows: bool)
    ensures msg.Tag() == Some("ping") ==>
              V.OnHostMessage(s, msg, clock, onThrows).fields.out
              == s.fields.out + [R.Send(E.Line(s.fields), Obj(map["t" := Str("pong"), "ts" := Int(clock)]), R.Keepalive)]
  {
  }

  lemma RejectNone(s: V.State)
    ensures V.RejectAll(s, []) == s
  {
  }

  lemma {:induction false} RejectOneMore(s: V.State, order: seq<string>, q: string)
    requires (forall r :: r in order ==> r in s.fields.pending) && q in s.fields.pending
    ensures forall r :: r in order + [q] ==> r in s.fields.pending
    ensures var before, p := V.RejectAll(s, order), s.fields.pending[q];
            var cleared := before.(fields := R.ClearTimeout(before.fields, p.timerId));
            V.RejectAll(s, order + [q]) == V.SendAck(cleared, V.IdOf(s, q), false, None, Some(Str(R.DESTROYED)), None, R.Settles(q))
    decreases order
  {
    hide V.AckFrame;
    if order == [] {
      assert order + [q] == [q] && [q][1..] == [];
    } else {
      var p := s.fields.pending[order[0]];
      var s1 := V.SendAck(s.(fields := R.ClearTimeout(s.fields, p.timerId)), V.IdOf(s, order[0]), false, None,
                          Some(Str(R.DESTROYED)), None, R.Settles(order[0]));
      assert (order + [q])[1..] == order[1..] + [q];
      RejectOneMore(s1, order[1..], q);
    }
  }
}
