/**
 * The relay (ts/infinity-bridge-relay/src/relay.ts) as the object it is: fields that handlers
 * update in place, a duplicate filter it owns, and the browser it acts on. Every method is proved
 * to take the object from one state of the module Relay to the next.
 */
module RelayObject {
  import opened Base
  import opened Json
  import opened Wire
  import opened RequestIds
  import D = Dedup
  import R = Relay
  import E = RelayEffects

  /** The part of the browser the relay uses. */
  class Browser {
    var listeners: nat
    var timers: map<R.TimerId, R.Timer>
    var nextTimer: R.TimerId
    var sockets: seq<R.ReadyState>
    var now: nat
    var out: seq<R.Out>

    constructor ()
      ensures listeners == 0 && timers == map[] && nextTimer == 0 && sockets == [] && now == 0 && out == []
    {
      listeners, timers, nextTimer, sockets, now, out := 0, map[], 0, [], 0, [];
    }

    method SetTimeout(kind: R.TimerKind, delay: nat) returns (id: R.TimerId)
      modifies this`timers, this`nextTimer
      ensures id == old(nextTimer) && nextTimer == id + 1
      ensures timers == old(timers)[id := R.Timer(kind, now + delay)]
    {
      id := nextTimer;
      nextTimer := nextTimer + 1;
      timers := timers[id := R.Timer(kind, now + delay)];
    }

    method ClearTimeout(id: R.TimerId)
      modifies this`timers
      ensures timers == old(timers) - {id}
    {
      timers := timers - {id};
    }

    /** The WebSocket constructor; nothing when it throws. */
    method NewWebSocket(throws: bool) returns (socket: Option<R.SocketId>)
      modifies this`sockets
      ensures socket == if throws then None else Some(|old(sockets)|)
      ensures sockets == if throws then old(sockets) else old(sockets) + [R.Connecting]
    {
      if throws {
        return None;
      }
      socket := Some(|sockets|);
      sockets := sockets + [R.Connecting];
    }

    method Record(o: R.Out)
      modifies this`out
      ensures out == old(out) + [o]
    {
      out := out + [o];
    }
  }

  class BridgeRelay {
    const cfg: R.Config
    const dedup: D.DedupRing<string>
    const browser: Browser
    var commBus: bool
    var commBusBound: bool
    var bindRetryTimerId: Option<R.TimerId>
    var ws: Option<R.SocketId>
    var wsRetryTimerId: Option<R.TimerId>
    var pending: map<string, R.Pending>
    var requestSeq: nat

    ghost predicate Valid()
      reads this, dedup
    {
      dedup.Valid()
    }

    ghost function State(): R.State
      reads this, dedup, browser
    {
      R.State(cfg, commBus, commBusBound, bindRetryTimerId, ws, wsRetryTimerId, pending, requestSeq, dedup.State(),
              browser.listeners, browser.timers, browser.nextTimer, browser.sockets, browser.now, browser.out)
    }

    constructor (cfg: R.Config, capacity: nat)
      ensures Valid() && State() == R.Fresh(cfg, capacity) && fresh(dedup) && fresh(browser)
    {
      this.cfg := cfg;
      this.dedup := new D.DedupRing<string>(capacity);
      this.browser := new Browser();
      commBus, commBusBound, bindRetryTimerId := false, false, None;
      ws, wsRetryTimerId, pending, requestSeq := None, None, map[], 0;
    }

    // ---- Sending ----

    method WsSend(frame: Json, cause: R.Cause)
      modifies browser`out
      ensures State() == R.WsSend(old(State()), frame, cause)
    {
      if ws.Some? && ws.value < |browser.sockets| && browser.sockets[ws.value] == R.Open {
        browser.Record(R.Send(ws, frame, cause));
      } else {
        browser.Record(R.Send(None, frame, cause));
      }
    }

    method SendReady()
      modifies browser`out
      ensures State() == R.SendReady(old(State()))
    {
      WsSend(Print(ReadyMsg(commBusBound)), R.Ready);
    }

    // ---- CommBus ----

    method BindCommBus(onThrows: bool)
      modifies this`commBusBound, browser`listeners, browser`out
      ensures State() == R.BindCommBus(old(State()), onThrows)
    {
      hide R.SendReady;
      if commBusBound || onThrows {
        return;
      }
      browser.listeners := browser.listeners + 1;
      commBusBound := true;
      SendReady();
    }

    method ScheduleBindRetry()
      modifies this`bindRetryTimerId, browser`timers, browser`nextTimer
      ensures State() == R.ScheduleBindRetry(old(State()))
    {
      if commBusBound || bindRetryTimerId.Some? {
        return;
      }
      var timer := browser.SetTimeout(R.BindRetry, cfg.bindRetryMs);
      bindRetryTimerId := Some(timer);
    }

    method OnBindRetry(onThrows: bool)
      modifies this`commBusBound, this`bindRetryTimerId, browser
      ensures State() == R.BindRetryFires(old(State()), onThrows)
      ensures commBusBound == (old(commBusBound) || (commBus && !onThrows))
      ensures if commBusBound then bindRetryTimerId == None && browser.timers == old(browser.timers)
              else && bindRetryTimerId == Some(old(browser.nextTimer))
                   && browser.timers == old(browser.timers)[old(browser.nextTimer) := R.Timer(R.BindRetry, browser.now + cfg.bindRetryMs)]
    {
      RetryEffect(State(), onThrows);
      hide R.BindCommBus, R.ScheduleBindRetry;
      bindRetryTimerId := None;
      if commBus {
        BindCommBus(onThrows);
      }
      ScheduleBindRetry();
    }

    // ---- WebSocket ----

    method ScheduleWsReconnect()
      modifies this`wsRetryTimerId, browser`timers, browser`nextTimer
      ensures State() == R.ScheduleWsReconnect(old(State()))
    {
      if wsRetryTimerId.Some? {
        return;
      }
      var timer := browser.SetTimeout(R.Reconnect, cfg.reconnectMs);
      wsRetryTimerId := Some(timer);
    }

    method ConnectWs(ctorThrows: bool)
      modifies this`ws, this`wsRetryTimerId, browser
      ensures State() == R.ConnectWs(old(State()), ctorThrows)
    {
      hide R.ScheduleWsReconnect;
      if ws.Some? && ws.value < |browser.sockets|
         && (browser.sockets[ws.value] == R.Open || browser.sockets[ws.value] == R.Connecting) {
        return;
      }
      ws := browser.NewWebSocket(ctorThrows);
      if ws.None? {
        ScheduleWsReconnect();
      }
    }

    /** `onerror` and `onclose`. */
    method OnSocketLost()
      modifies this`ws, this`wsRetryTimerId, browser`timers, browser`nextTimer
      ensures State() == R.LoseWs(old(State()))
    {
      hide R.ScheduleWsReconnect;
      ws := None;
      ScheduleWsReconnect();
    }

    method OnReconnect(ctorThrows: bool)
      modifies this`ws, this`wsRetryTimerId, browser
      ensures State() == R.ConnectWs(old(State()).(wsRetryTimerId := None), ctorThrows)
    {
      hide R.ConnectWs;
      wsRetryTimerId := None;
      ConnectWs(ctorThrows);
    }

    method OnOpen(clock: int)
      modifies browser`out
      ensures State() == R.OnOpen(old(State()), clock)
    {
      hide R.WsSend, R.SendReady;
      WsSend(R.HelloFrame(cfg, clock), R.Greeting);
      SendReady();
    }

    method Init(ctorThrows: bool, onThrows: bool)
      modifies this, browser
      ensures State() == R.Init(old(State()), ctorThrows, onThrows)
    {
      hide R.ConnectWs, R.BindCommBus, R.ScheduleBindRetry;
      ConnectWs(ctorThrows);
      commBus := true;
      BindCommBus(onThrows);
      ScheduleBindRetry();
    }

    // ---- Requests ----

    method NextRequestId(clock: int) returns (id: string)
      modifies this`requestSeq
      ensures requestSeq == old(requestSeq) + 1 && id == RequestId(clock, requestSeq)
    {
      requestSeq := requestSeq + 1;
      id := RequestId(clock, requestSeq);
    }

    /** Deletes the entry and clears its timer before the ack goes out. */
    method Settle(requestId: string, frame: Json)
      requires requestId in pending
      modifies this`pending, browser`timers, browser`out
      ensures State() == R.Settle(old(State()), requestId, frame)
    {
      hide R.WsSend;
      var p := pending[requestId];
      pending := pending - {requestId};
      browser.ClearTimeout(p.timerId);
      WsSend(frame, R.Settles(requestId));
    }

    method OnRequestTimeout(requestId: string, cmdId: string)
      modifies this`pending, browser`out
      ensures State() == R.RequestTimerFires(old(State()), requestId, cmdId)
    {
      hide R.WsSend;
      pending := pending - {requestId};
      var error := if commBusBound then R.TIMED_OUT else R.NOT_BOUND;
      WsSend(R.AckErr(cmdId, error), R.Settles(requestId));
    }

    method OnCallRejected(requestId: string, reason: string)
      modifies this`pending, browser`timers, browser`out
      ensures State() == R.CallRejected(old(State()), requestId, reason)
    {
      hide R.Settle;
      if requestId !in pending {
        return;
      }
      Settle(requestId, R.AckErr(pending[requestId].cmdId, reason));
    }

    /** Marks the id, arms the timer and stores the pending entry. */
    method Accept(cmdId: string, clock: int) returns (requestId: string)
      requires Valid()
      modifies this`requestSeq, this`pending, dedup, browser`timers, browser`nextTimer
      ensures Valid() && requestId == RequestId(clock, old(requestSeq) + 1)
      ensures State() == R.Accept(old(State()), cmdId, requestId) && requestId in pending
    {
      hide D.Mark, RequestId;
      dedup.MarkId(cmdId);
      requestId := NextRequestId(clock);
      var timer := browser.SetTimeout(R.RequestTimeout(requestId, cmdId), cfg.requestTimeoutMs);
      pending := pending[requestId := R.Pending(cmdId, timer)];
    }

    method Dispatch(requestId: string, cmd: Json, onThrows: bool)
      requires requestId in pending
      modifies this`pending, this`commBusBound, browser
      ensures State() == R.Dispatch(old(State()), requestId, cmd, onThrows)
    {
      hide R.Settle, R.BindCommBus, R.Envelope;
      if !commBus {
        Settle(requestId, R.AckErr(pending[requestId].cmdId, R.NOT_READY));
        return;
      }
      BindCommBus(onThrows);
      browser.Record(R.Call(R.Envelope(requestId, cmd)));
    }

    method OnHostCommand(cmd: Json, clock: int, onThrows: bool)
      requires Valid()
      modifies this, dedup, browser
      ensures Valid() && State() == R.OnHostCommand(old(State()), cmd, clock, onThrows)
    {
      hide R.Accept, R.Dispatch, R.WsSend, R.AckDuplicate, D.Has, RequestId;
      match cmd.Get("id") {
        case Some(Str(cmdId)) =>
          var seen := dedup.IsMarked(cmdId);
          if seen {
            WsSend(R.AckDuplicate(cmdId), R.Duplicate);
            return;
          }
          var requestId := Accept(cmdId, clock);
          Dispatch(requestId, cmd, onThrows);
        case _ =>
      }
    }

    method OnHostEvent(event: Json, clock: int)
      modifies this`requestSeq, browser`out
      ensures State() == R.OnHostEvent(old(State()), event, clock)
    {
      hide R.Envelope, RequestId;
      if !commBus {
        return;
      }
      var requestId := NextRequestId(clock);
      browser.Record(R.Call(R.Envelope(requestId, event)));
    }

    method OnHostMessage(msg: Json, clock: int, onThrows: bool)
      requires Valid()
      modifies this, dedup, browser
      ensures Valid() && State() == R.OnHostMessage(old(State()), msg, clock, onThrows)
      ensures msg.Tag() == Some("ping") ==>
                browser.out == old(browser.out) + [R.Send(E.Line(old(State())), Obj(map["t" := Str("pong"), "ts" := Int(clock)]), R.Keepalive)]
    {
      PingEffect(State(), msg, clock, onThrows);
      hide R.OnHostCommand, R.OnHostEvent, R.WsSend, R.PongFrame;
      var t := msg.Tag();
      if t == Some("ping") {
        WsSend(R.PongFrame(clock), R.Keepalive);
      } else if t == Some("cmd") {
        OnHostCommand(msg, clock, onThrows);
      } else if t == Some("event") {
        OnHostEvent(msg, clock);
      }
    }

    method OnWasmMessage(msg: Json)
      modifies this`pending, browser`timers, browser`out
      ensures State() == R.OnWasmMessage(old(State()), msg)
    {
      hide R.Settle, R.WsSend, R.AckOk, R.AckErr, R.ErrorText;
      match msg.Get("requestId") {
        case Some(Str(requestId)) =>
          if requestId in pending {
            var p := pending[requestId];
            if msg.Get("ok") == Some(Bool(false)) {
              Settle(requestId, R.AckErr(p.cmdId, R.ErrorText(msg)));
            } else {
              Settle(requestId, R.AckOk(p.cmdId, msg.Get("response")));
            }
          }
        case _ =>
          if msg.Tag() == Some("event") || msg.Tag() == Some("ack") {
            WsSend(msg, R.Forwards);
          }
      }
    }

    /** Every pending request is rejected, in whatever order the table is walked. */
    method RejectPending() returns (ghost order: seq<string>)
      modifies browser`timers, browser`out
      ensures Distinct(order) && forall q :: q in order <==> q in pending
      ensures State() == R.RejectAll(old(State()), order)
    {
      hide R.RejectAll, R.WsSend;
      order := [];
      var todo := pending.Keys;
      RejectNone(State());
      while todo != {}
        invariant todo <= pending.Keys
        invariant Distinct(order) && forall q :: q in order <==> q in pending && q !in todo
        invariant State() == R.RejectAll(old(State()), order)
        decreases |todo|
      {
        var q :| q in todo;
        todo := todo - {q};
        RejectOneMore(old(State()), order, q);
        order := order + [q];
        var p := pending[q];
        browser.ClearTimeout(p.timerId);
        WsSend(R.AckErr(p.cmdId, R.DESTROYED), R.Settles(q));
      }
    }

    method CleanupWs()
      modifies this`ws, this`wsRetryTimerId, browser`timers, browser`sockets
      ensures State() == R.CleanupWs(old(State()))
    {
      if wsRetryTimerId.Some? {
        browser.ClearTimeout(wsRetryTimerId.value);
        wsRetryTimerId := None;
      }
      if ws.Some? && ws.value < |browser.sockets| && browser.sockets[ws.value] != R.Closed {
        browser.sockets := browser.sockets[ws.value := R.Closing];
      }
      ws := None;
    }

    /** `unregisterThrows`: the handle's `unregister` throws, which ends `destroy` there. */
    method Destroy(unregisterThrows: bool) returns (ghost order: seq<string>)
      modifies this, browser
      ensures Distinct(order) && forall q :: q in order <==> q in old(pending)
      ensures State() == if unregisterThrows && old(commBus) then R.DestroyAborted(old(State()), order)
                         else R.Destroy(old(State()), order)
    {
      hide R.RejectAll, R.CleanupWs;
      order := RejectPending();
      pending := map[];
      if bindRetryTimerId.Some? {
        browser.ClearTimeout(bindRetryTimerId.value);
        bindRetryTimerId := None;
      }
      if commBus {
        browser.listeners := if browser.listeners > 0 then browser.listeners - 1 else browser.listeners;
        if unregisterThrows {
          return;
        }
      }
      commBus, commBusBound := false, false;
      CleanupWs();
    }

    // ---- Events ----

    method OnTimer(t: R.TimerId, onThrows: bool, ctorThrows: bool)
      requires R.Enabled(State(), R.TimerFires(t, onThrows, ctorThrows))
      modifies this, browser
      ensures State() == R.Handle(old(State()), R.TimerFires(t, onThrows, ctorThrows))
    {
      hide R.RequestTimerFires, R.BindRetryFires, R.ConnectWs;
      var kind := browser.timers[t].kind;
      browser.ClearTimeout(t);
      match kind {
        case RequestTimeout(requestId, cmdId) => OnRequestTimeout(requestId, cmdId);
        case BindRetry => OnBindRetry(onThrows);
        case Reconnect => OnReconnect(ctorThrows);
      }
    }

    method OnSocket(i: R.Input)
      requires R.Enabled(State(), i) && (i.SocketOpens? || i.SocketChanges? || i.SocketErrors? || i.SocketCloses?)
      modifies this`ws, this`wsRetryTimerId, browser
      ensures State() == R.Handle(old(State()), i)
    {
      hide R.OnOpen, R.LoseWs;
      match i {
        case SocketOpens(k, clock) =>
          browser.sockets := browser.sockets[k := R.Open];
          OnOpen(clock);
        case SocketChanges(k, to) => browser.sockets := browser.sockets[k := to];
        case SocketErrors(_) => OnSocketLost();
        case SocketCloses(_) => OnSocketLost();
      }
    }

    /**
     * Any event, one handler each; `out` afterwards holds that handler's calls. `done` is the event
     * as it happened: for `destroy`, with the order in which the table was walked.
     */
    method React(i: R.Input) returns (ghost done: R.Input)
      requires Valid() && (i.Destroyed? || R.Enabled(State(), i))
      modifies this, dedup, browser
      ensures done == i || (i.Destroyed? && done.Destroyed?)
      ensures Valid() && R.Enabled(old(State()), done) && State() == R.Step(old(State()), done)
    {
      hide R.Handle;
      browser.out := [];
      assert State() == old(State()).(out := []);
      if i.Destroyed? {
        ghost var order := Destroy(false);
        done := R.Destroyed(order);
        assert R.Enabled(old(State()), done);
        assert State() == R.Handle(old(State()).(out := []), done) by { HandlesDestroy(old(State()).(out := []), order); }
      } else {
        done := i;
        ReactTo(i);
      }
    }

    method ReactTo(i: R.Input)
      requires Valid() && R.Enabled(State(), i) && !i.Destroyed?
      modifies this, dedup, browser
      ensures Valid() && State() == R.Handle(old(State()), i)
    {
      hide R.BindCommBus, R.OnHostMessage, R.OnWasmMessage, R.CallRejected;
      match i {
        case Continuation(onThrows) => BindCommBus(onThrows);
        case TimerFires(t, onThrows, ctorThrows) => hide R.Handle; OnTimer(t, onThrows, ctorThrows);
        case SocketOpens(_, _) => hide R.Handle; OnSocket(i);
        case SocketChanges(_, _) => hide R.Handle; OnSocket(i);
        case SocketErrors(_) => hide R.Handle; OnSocket(i);
        case SocketCloses(_) => hide R.Handle; OnSocket(i);
        case HostSends(_, msg, clock, onThrows) => OnHostMessage(msg, clock, onThrows);
        case WasmSends(msg) => OnWasmMessage(msg);
        case CallRejects(requestId, reason) => OnCallRejected(requestId, reason);
        case TimePasses(ms) => browser.now := browser.now + ms;
      }
    }
  }

  lemma RetryEffect(s: R.State, onThrows: bool)
    ensures var r := R.BindRetryFires(s, onThrows);
            && r.commBusBound == (s.commBusBound || (s.commBus && !onThrows))
            && if r.commBusBound then r.bindRetryTimerId == None && r.timers == s.timers
               else && r.bindRetryTimerId == Some(s.nextTimer)
                    && r.timers == s.timers[s.nextTimer := R.Timer(R.BindRetry, s.now + s.cfg.bindRetryMs)]
  {
    hide Print;
  }

  lemma PingEffect(s: R.State, msg: Json, clock: int, onThrows: bool)
    ensures msg.Tag() == Some("ping") ==>
              R.OnHostMessage(s, msg, clock, onThrows).out
              == s.out + [R.Send(E.Line(s), Obj(map["t" := Str("pong"), "ts" := Int(clock)]), R.Keepalive)]
  {
  }

  lemma HandlesDestroy(s: R.State, order: seq<string>)
    requires R.Enabled(s, R.Destroyed(order))
    ensures R.Handle(s, R.Destroyed(order)) == R.Destroy(s, order)
  {
    hide R.Destroy;
  }

  lemma RejectNone(s: R.State)
    ensures R.RejectAll(s, []) == s
  {
  }

  /** Walking the table front to back is rejecting one more entry after those already rejected. */
  lemma {:induction false} RejectOneMore(s: R.State, order: seq<string>, q: string)
    requires (forall r :: r in order ==> r in s.pending) && q in s.pending
    ensures forall r :: r in order + [q] ==> r in s.pending
    ensures R.RejectAll(s, order + [q])
         == R.WsSend(R.ClearTimeout(R.RejectAll(s, order), s.pending[q].timerId),
                     R.AckErr(s.pending[q].cmdId, R.DESTROYED), R.Settles(q))
    decreases order
  {
    hide R.AckErr;
    if order == [] {
      assert order + [q] == [q] && [q][1..] == [];
    } else {
      var p := s.pending[order[0]];
      var s1 := R.WsSend(R.ClearTimeout(s, p.timerId), R.AckErr(p.cmdId, R.DESTROYED), R.Settles(order[0]));
      assert (order + [q])[1..] == order[1..] + [q];
      RejectOneMore(s1, order[1..], q);
    }
  }
}
