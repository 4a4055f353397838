/**
 * What each handler of the ReScript relay (rescript/infinity-bridge-relay/src/BridgeRelay.res) leaves
 * behind, for every message, also those on which the TypeScript relay does something else.
 */
module RescriptEffects {
  import opened Base
  import opened Json
  import opened Wire
  import opened RequestIds
  import opened RescriptRelay
  import R = Relay
  import RI = RelayInvariants
  import E = RelayEffects
  import D = Dedup

  /** The fields of an ack; a field given as nothing is absent. */
  predicate IsAck(
    frame: Json, id: Option<Json>, ok: bool, response: Option<Json>, error: Option<Json>, duplicate: Option<Json>)
  {
    && frame.Get("t") == Some(Str("ack")) && frame.Get("id") == id && frame.Get("ok") == Some(Bool(ok))
    && frame.Get("response") == response && frame.Get("error") == error && frame.Get("duplicate") == duplicate
  }

  /** The calls of a handler that does nothing but send one such ack over the socket in use. */
  predicate OneAck(
    f: R.State, out: seq<R.Out>, cause: R.Cause, id: Option<Json>, ok: bool, response: Option<Json>, error: Option<Json>,
    duplicate: Option<Json>)
  {
    && |out| == 1 && out[0].Send? && out[0].via == E.Line(f) && out[0].cause == cause
    && IsAck(out[0].frame, id, ok, response, error, duplicate)
  }

  predicate OneRefusal(f: R.State, out: seq<R.Out>, q: string, id: Option<Json>, error: Json) {
    OneAck(f, out, R.Settles(q), id, false, None, Some(error), None)
  }

  lemma AckFields(id: Option<Json>, ok: bool, response: Option<Json>, error: Option<Json>, duplicate: Option<bool>)
    ensures IsAck(AckFrame(id, ok, response, error, duplicate), id, ok, response, error, OptBool(duplicate))
  {
    AckFrameFields(id, ok, response, error, duplicate);
  }

  // ---- Keepalive, connecting, binding ----

  /** A ping is answered with a pong showing the relay's clock, and has no other effect. */
  lemma PingAnswered(s: State, i: R.Input, thrown: Option<string>)
    requires i.HostSends? && R.Enabled(s.fields, i) && i.msg.Tag() == Some("ping")
    ensures var pong := Obj(map["t" := Str("pong"), "ts" := Int(i.clock)]);
            Step(s, i, thrown) == s.(fields := s.fields.(out := [R.Send(E.Line(s.fields), pong, R.Keepalive)]))
  {
  }

  /** A socket that opens greets the host, then reports the bind state; both go over the socket in use. */
  lemma OpeningGreets(s: State, i: R.Input, thrown: Option<string>)
    requires i.SocketOpens? && R.Enabled(s.fields, i)
    ensures var s', f := Step(s, i, thrown), s.fields.(sockets := s.fields.sockets[i.socket := R.Open]);
            var out := s'.fields.out;
            && |out| == 2 && s' == s.(fields := f.(out := out))
            && out[0].Send? && out[0].via == E.Line(f) && E.IsHello(out[0].frame, f.cfg, i.clock)
            && out[1] == R.Send(E.Line(f), E.ReadyFrame(f.commBusBound), R.Ready)
  {
    E.HelloFields(s.fields.cfg, i.clock);
    E.ReadyFrames(s.fields.commBusBound);
    hide R.HelloFrame, E.IsHello, Print;
  }

  /** A bind retry binds the relay and tells the host, or, if attaching throws, arms the next one. */
  lemma RetryBinds(s: State, i: R.Input, thrown: Option<string>)
    requires RI.NeverStranded(s.fields) && !s.fields.commBusBound && s.onWasmHandler
    requires i.TimerFires? && R.Enabled(s.fields, i) && s.fields.timers[i.timer].kind == R.BindRetry
    ensures var f := s.fields;
            var retry := R.Timer(R.BindRetry, f.now + f.cfg.bindRetryMs);
            Step(s, i, thrown).fields ==
              if i.onThrows
              then f.(bindRetryTimerId := Some(f.nextTimer), nextTimer := f.nextTimer + 1, out := [],
                      timers := (f.timers - {i.timer})[f.nextTimer := retry])
              else f.(commBusBound := true, listeners := 1, bindRetryTimerId := None, timers := f.timers - {i.timer},
                      out := [R.Send(E.Line(f), E.ReadyFrame(true), R.Ready)])
    ensures Step(s, i, thrown) == s.(fields := Step(s, i, thrown).fields)
    ensures i.onThrows ==> forall t :: R.Live(Step(s, i, thrown).fields, t, R.BindRetry) <==> t == s.fields.nextTimer
    ensures !i.onThrows ==> forall t :: !R.Live(Step(s, i, thrown).fields, t, R.BindRetry)
  {
    assert R.Live(s.fields, i.timer, R.BindRetry);
    E.ReadyFrames(true);
    hide Print;
  }

  /** The continuation binds a relay that has its handler and is not bound; after `destroy` it has none. */
  lemma ContinuationBinds(s: State, i: R.Input, thrown: Option<string>)
    requires i.Continuation?
    ensures Step(s, i, thrown)
         == if s.fields.commBusBound || i.onThrows || !s.onWasmHandler then s.(fields := s.fields.(out := []))
            else s.(fields := s.fields.(commBusBound := true, listeners := s.fields.listeners + 1,
                                        out := [R.Send(E.Line(s.fields), E.ReadyFrame(true), R.Ready)]))
  {
    E.ReadyFrames(true);
    hide Print;
  }

  // ---- Messages of the host ----

  /** The state once a command has been taken on, whatever its id is. */
  function Taken(s: State, id: Option<Json>, q: string): State {
    var f, text := s.fields, if id.Some? && id.value.Str? then id.value.s else "";
    s.(fields := f.(requestSeq := f.requestSeq + 1, pending := f.pending[q := R.Pending(text, f.nextTimer)],
                    nextTimer := f.nextTimer + 1,
                    timers := f.timers[f.nextTimer := R.Timer(R.RequestTimeout(q, text), f.now + f.cfg.requestTimeoutMs)]),
       ring := D.Mark(s.ring, KeyOf(id, f.requestSeq + 1)), captured := s.captured[q := id])
  }

  predicate IsFresh(s: State, i: R.Input) {
    i.HostSends? && i.msg.Tag() == Some("cmd") && KeyOf(i.msg.Get("id"), s.fields.requestSeq + 1) !in s.ring.order
  }

  lemma FreshTaken(s: State, i: R.Input, thrown: Option<string>)
    requires R.Enabled(s.fields, i) && IsFresh(s, i)
    ensures var s0, q := s.(fields := s.fields.(out := [])), RequestId(i.clock, s.fields.requestSeq + 1);
            && q in Taken(s0, i.msg.Get("id"), q).fields.pending
            && Step(s, i, thrown) == Dispatch(Taken(s0, i.msg.Get("id"), q), q, i.msg, i.onThrows)
  {
    hide RequestId, D.Mark, Dispatch, KeyOf;
    assert !D.Has(s.ring, KeyOf(i.msg.Get("id"), s.fields.requestSeq + 1));
  }

  lemma BindsThenCalls(t: State, q: string, cmd: Json, onThrows: bool)
    requires q in t.fields.pending && t.fields.commBus && t.fields.out == []
    ensures var call := R.Call(Obj(map["requestId" := Str(q), "payload" := cmd]));
            Dispatch(t, q, cmd, onThrows) ==
              if t.fields.commBusBound || onThrows || !t.onWasmHandler then t.(fields := t.fields.(out := [call]))
              else t.(fields := t.fields.(commBusBound := true, listeners := t.fields.listeners + 1,
                                          out := [R.Send(E.Line(t.fields), E.ReadyFrame(true), R.Ready), call]))
  {
    E.ReadyFrames(true);
    hide Print;
  }

  /**
   * A new command is taken on and handed to the CommBus under the next request id, with a text id, any
   * other or none. A relay that is not bound tries to bind first, and tells the host if that took.
   */
  lemma CommandForwarded(s: State, i: R.Input, thrown: Option<string>)
    requires R.Enabled(s.fields, i) && IsFresh(s, i) && s.fields.commBus
    ensures var q := RequestId(i.clock, s.fields.requestSeq + 1);
            var t, call := Taken(s, i.msg.Get("id"), q), R.Call(Obj(map["requestId" := Str(q), "payload" := i.msg]));
            Step(s, i, thrown) ==
              if s.fields.commBusBound || i.onThrows || !s.onWasmHandler then t.(fields := t.fields.(out := [call]))
              else t.(fields := t.fields.(commBusBound := true, listeners := s.fields.listeners + 1,
                                          out := [R.Send(E.Line(s.fields), E.ReadyFrame(true), R.Ready), call]))
  {
    var q := RequestId(i.clock, s.fields.requestSeq + 1);
    FreshTaken(s, i, thrown);
    hide RequestId, Step;
    BindsThenCalls(Taken(s.(fields := s.fields.(out := [])), i.msg.Get("id"), q), q, i.msg, i.onThrows);
    TakenFrame(s, i.msg.Get("id"), q);
    hide Taken, E.Line, Dispatch, IsFresh;
  }

  lemma TakenFrame(s: State, id: Option<Json>, q: string)
    ensures var t, t0 := Taken(s, id, q), Taken(s.(fields := s.fields.(out := [])), id, q);
            && t0 == t.(fields := t.fields.(out := [])) && E.Line(t0.fields) == E.Line(s.fields)
            && t.fields.commBus == s.fields.commBus && t.fields.commBusBound == s.fields.commBusBound
            && t.fields.listeners == s.fields.listeners && t.onWasmHandler == s.onWasmHandler
  {
    hide D.Mark, KeyOf;
  }

  /** A command was taken on and is over: it is numbered and marked, and neither pending nor timed. */
  predicate RefusedAtOnce(s: State, s': State, id: Option<Json>, q: string) {
    s' == s.(fields := s.fields.(requestSeq := s.fields.requestSeq + 1, nextTimer := s.fields.nextTimer + 1,
                                 out := s'.fields.out),
             ring := D.Mark(s.ring, KeyOf(id, s.fields.requestSeq + 1)), captured := s.captured[q := id])
  }

  lemma TakenThenRefused(s: State, id: Option<Json>, q: string, cmd: Json, onThrows: bool)
    requires q !in s.fields.pending && s.fields.nextTimer !in s.fields.timers && !s.fields.commBus
    requires q in Taken(s.(fields := s.fields.(out := [])), id, q).fields.pending
    ensures var s' := Dispatch(Taken(s.(fields := s.fields.(out := [])), id, q), q, cmd, onThrows);
            RefusedAtOnce(s, s', id, q) && OneRefusal(s.fields, s'.fields.out, q, id, Str("COMMBUS_NOT_READY: CommBus not initialized"))
  {
    AckFields(id, false, None, Some(Str(R.NOT_READY)), None);
    hide D.Mark, KeyOf, AckFrame, IsAck, BindCommBus, R.Envelope;
    var t := Taken(s, id, q);
    assert t.fields.pending - {q} == s.fields.pending && t.fields.timers - {s.fields.nextTimer} == s.fields.timers;
  }

  /** Without a handle it is taken on, refused at once, and neither pending nor timed afterwards. */
  lemma CommandRefused(s: State, i: R.Input, thrown: Option<string>)
    requires RI.Consistent(s.fields) && R.Enabled(s.fields, i) && IsFresh(s, i) && !s.fields.commBus
    ensures var s', id, q := Step(s, i, thrown), i.msg.Get("id"), RequestId(i.clock, s.fields.requestSeq + 1);
            && RefusedAtOnce(s, s', id, q)
            && OneRefusal(s.fields, s'.fields.out, q, id, Str("COMMBUS_NOT_READY: CommBus not initialized"))
  {
    assert i.HostSends?;
    hide RI.Consistent, RequestId, OneRefusal, Dispatch, Step, Taken, R.Enabled, IsFresh, RefusedAtOnce;
    FreshTaken(s, i, thrown);
    E.NewEntry(s.fields, i.clock);
    TakenThenRefused(s, i.msg.Get("id"), RequestId(i.clock, s.fields.requestSeq + 1), i.msg, i.onThrows);
  }

  lemma SeenAnswers(s: State, i: R.Input, thrown: Option<string>)
    requires R.Enabled(s.fields, i) && i.HostSends? && i.msg.Tag() == Some("cmd")
    requires KeyOf(i.msg.Get("id"), s.fields.requestSeq + 1) in s.ring.order
    ensures Step(s, i, thrown)
         == SendAck(s.(fields := s.fields.(out := [])), i.msg.Get("id"), true, Some(Null), None, Some(true), R.Duplicate)
  {
    hide SendAck, KeyOf, NextRequestId, Dispatch, Register;
    assert D.Has(s.ring, KeyOf(i.msg.Get("id"), s.fields.requestSeq + 1));
  }

  /** A remembered id gets a duplicate ack; the command goes no further. */
  lemma DuplicateAcknowledged(s: State, i: R.Input, thrown: Option<string>)
    requires R.Enabled(s.fields, i) && i.HostSends? && i.msg.Tag() == Some("cmd")
    requires KeyOf(i.msg.Get("id"), s.fields.requestSeq + 1) in s.ring.order
    ensures var s' := Step(s, i, thrown);
            && s' == s.(fields := s.fields.(out := s'.fields.out))
            && OneAck(s.fields, s'.fields.out, R.Duplicate, i.msg.Get("id"), true, Some(Null), None, Some(Bool(true)))
  {
    SeenAnswers(s, i, thrown);
    AckFields(i.msg.Get("id"), true, Some(Null), None, Some(true));
    hide AckFrame, IsAck, KeyOf, Step;
  }

  /** An event of the host is handed to the CommBus as it is, under the next request id, and never waits. */
  lemma EventForwarded(s: State, i: R.Input, thrown: Option<string>)
    requires i.HostSends? && R.Enabled(s.fields, i) && i.msg.Tag() == Some("event")
    ensures var f, q := s.fields, RequestId(i.clock, s.fields.requestSeq + 1);
            Step(s, i, thrown) ==
              if !f.commBus then s.(fields := f.(out := []))
              else s.(fields := f.(requestSeq := f.requestSeq + 1,
                                   out := [R.Call(Obj(map["requestId" := Str(q), "payload" := i.msg]))]))
  {
    hide RequestId;
  }

  /** Every other message of the host is ignored. */
  lemma OthersIgnored(s: State, i: R.Input, thrown: Option<string>)
    requires i.HostSends? && R.Enabled(s.fields, i)
    requires i.msg.Tag().None? || i.msg.Tag().value !in {"ping", "cmd", "event"}
    ensures Step(s, i, thrown) == s.(fields := s.fields.(out := []))
  {
  }

  // ---- Answers ----

  /** Request q is settled: its entry and its timer are gone, and nothing else but the calls changed. */
  predicate Settled(s: State, s': State, q: string)
    requires q in s.fields.pending
  {
    s' == s.(fields := s.fields.(pending := s.fields.pending - {q},
                                 timers := s.fields.timers - {s.fields.pending[q].timerId}, out := s'.fields.out))
  }

  lemma RefusedAlone(s: State, q: string, error: Json)
    requires q in s.fields.pending && s.fields.out == []
    ensures var s' := Reject(s, q, Some(error));
            Settled(s, s', q) && OneRefusal(s.fields, s'.fields.out, q, if q in s.captured then s.captured[q] else None, error)
  {
    AckFields(IdOf(s, q), false, None, Some(error), None);
    hide AckFrame, IsAck;
  }

  /**
   * A success that names a pending request answers it with the response, or with null if it has none;
   * one that names no pending request is dropped.
   */
  lemma AnswerSettles(s: State, i: R.Input, thrown: Option<string>, q: string)
    requires i.WasmSends? && R.Enabled(s.fields, i)
    requires i.msg.Get("requestId") == Some(Str(q)) && i.msg.Get("ok") == Some(Bool(true))
    ensures q !in s.fields.pending ==> Step(s, i, thrown) == s.(fields := s.fields.(out := []))
    ensures q in s.fields.pending ==>
              var s', id := Step(s, i, thrown), if q in s.captured then s.captured[q] else None;
              var response := if i.msg.Get("response").Some? then i.msg.Get("response").value else Null;
              Settled(s, s', q) && OneAck(s.fields, s'.fields.out, R.Settles(q), id, true, Some(response), None, None)
  {
    hide AckFrame, IsAck, Step;
    AckFields(IdOf(s, q), true, Some(i.msg.Get("response").GetOr(Null)), None, None);
    AnswerAcks(s, i, thrown, q);
  }

  lemma AnswerAcks(s: State, i: R.Input, thrown: Option<string>, q: string)
    requires i.WasmSends? && R.Enabled(s.fields, i)
    requires i.msg.Get("requestId") == Some(Str(q)) && i.msg.Get("ok") == Some(Bool(true))
    ensures var s0, response := s.(fields := s.fields.(out := [])), i.msg.Get("response").GetOr(Null);
            Step(s, i, thrown) == if q in s.fields.pending
                                  then SendAck(TakePending(s0, q), IdOf(s, q), true, Some(response), None, None, R.Settles(q))
                                  else s0
  {
    hide SendAck, Reject, TakePending;
  }

  /** A failure refuses its request with the error as the module wrote it, or with a stock text. */
  lemma FailureSettles(s: State, i: R.Input, thrown: Option<string>, q: string)
    requires i.WasmSends? && R.Enabled(s.fields, i)
    requires i.msg.Get("requestId") == Some(Str(q)) && i.msg.Get("ok") == Some(Bool(false))
    ensures q !in s.fields.pending ==> Step(s, i, thrown) == s.(fields := s.fields.(out := []))
    ensures q in s.fields.pending ==>
              var s', id := Step(s, i, thrown), if q in s.captured then s.captured[q] else None;
              var error := if i.msg.Get("error").Some? then i.msg.Get("error").value else Str("[msfs-bridge] WASM returned error");
              Settled(s, s', q) && OneRefusal(s.fields, s'.fields.out, q, id, error)
  {
    if q in s.fields.pending {
      RefusedAlone(s.(fields := s.fields.(out := [])), q, i.msg.Get("error").GetOr(Str(R.WASM_ERROR)));
    }
    hide IsAck, Reject;
  }

  /** Any other event or ack goes to the host as it is, even with a request id; the rest goes nowhere. */
  lemma MessagePassedOn(s: State, i: R.Input, thrown: Option<string>)
    requires i.WasmSends? && R.Enabled(s.fields, i)
    requires !(i.msg.Get("requestId").Some? && i.msg.Get("requestId").value.Str?
               && i.msg.Get("ok").Some? && i.msg.Get("ok").value.Bool?)
    ensures Step(s, i, thrown)
         == s.(fields := s.fields.(
                 out := if i.msg.Tag() == Some("event") || i.msg.Tag() == Some("ack")
                        then [R.Send(E.Line(s.fields), i.msg, R.Forwards)] else []))
  {
  }

  /** A rejected CommBus call refuses its request with the message of the exception, if it has one. */
  lemma RejectionRefuses(s: State, i: R.Input, thrown: Option<string>)
    requires i.CallRejects?
    ensures var s', q := Step(s, i, thrown), i.requestId;
            if q !in s.fields.pending then s' == s.(fields := s.fields.(out := []))
            else && Settled(s, s', q)
                 && OneRefusal(s.fields, s'.fields.out, q, if q in s.captured then s.captured[q] else None,
                               Str(if thrown.Some? then thrown.value else "unknown"))
  {
    hide IsAck, Reject;
    if i.requestId in s.fields.pending {
      RefusedAlone(s.(fields := s.fields.(out := [])), i.requestId, Str(thrown.GetOr("unknown")));
    }
  }

  /** A request that times out is refused, and the reason tells an unbound relay from a silent module. */
  lemma TimeoutRefuses(s: State, i: R.Input, thrown: Option<string>)
    requires RI.Consistent(s.fields) && i.TimerFires? && R.Enabled(s.fields, i) && s.fields.timers[i.timer].kind.RequestTimeout?
    ensures var s', q := Step(s, i, thrown), s.fields.timers[i.timer].kind.requestId;
            && q in s.fields.pending && Settled(s, s', q)
            && OneRefusal(s.fields, s'.fields.out, q, if q in s.captured then s.captured[q] else None,
                 Str(if s.fields.commBusBound then "WASM_TIMEOUT: no response from WASM gauge"
                     else "COMMBUS_NOT_BOUND: response listener never attached — no WASM module is reachable"))
  {
    assert RI.HasRequest(s.fields, i.timer);
    hide RI.Consistent, Step, IsAck, RequestTimerFires;
    var q := s.fields.timers[i.timer].kind.requestId;
    ExpiryFires(s, i, thrown, q);
    ExpiryRefuses(s.(fields := s.fields.(timers := s.fields.timers - {i.timer}, out := [])), q);
  }

  lemma ExpiryRefuses(s: State, q: string)
    requires s.fields.out == []
    ensures var s' := RequestTimerFires(s, q);
            && s' == s.(fields := s.fields.(pending := s.fields.pending - {q}, out := s'.fields.out))
            && OneRefusal(s.fields, s'.fields.out, q, if q in s.captured then s.captured[q] else None,
                 Str(if s.fields.commBusBound then "WASM_TIMEOUT: no response from WASM gauge"
                     else "COMMBUS_NOT_BOUND: response listener never attached — no WASM module is reachable"))
  {
    AckFields(IdOf(s, q), false, None, Some(Str(if s.fields.commBusBound then R.TIMED_OUT else R.NOT_BOUND)), None);
    hide AckFrame, IsAck;
  }

  lemma ExpiryFires(s: State, i: R.Input, thrown: Option<string>, q: string)
    requires i.TimerFires? && R.Enabled(s.fields, i) && s.fields.timers[i.timer].kind.RequestTimeout?
    requires q == s.fields.timers[i.timer].kind.requestId
    ensures Step(s, i, thrown)
         == RequestTimerFires(s.(fields := s.fields.(timers := s.fields.timers - {i.timer}, out := [])), q)
  {
    hide RequestTimerFires;
  }

  // ---- Tearing down ----

  lemma {:induction false} RejectAllRefuses(s: State, order: seq<string>)
    requires forall q :: q in order ==> q in s.fields.pending
    ensures var r, n := RejectAll(s, order), |s.fields.out|;
            && r == s.(fields := s.fields.(timers := r.fields.timers, out := r.fields.out))
            && |r.fields.out| == n + |order| && r.fields.out[..n] == s.fields.out
            && forall k :: 0 <= k < |order| ==> Farewell(s, order[k], r.fields.out[n + k])
    ensures forall t :: t in RejectAll(s, order).fields.timers ==>
              && t in s.fields.timers && RejectAll(s, order).fields.timers[t] == s.fields.timers[t]
              && forall q :: q in order ==> s.fields.pending[q].timerId != t
    decreases order
  {
    hide Farewell;
    if order != [] {
      var s1 := RefuseNext(s, order[0]);
      RejectAllRefuses(s1, order[1..]);
      assert RejectAll(s, order) == RejectAll(s1, order[1..]);
      hide RejectAll;
      var r, n := RejectAll(s, order), |s.fields.out|;
      forall k | 0 <= k < |order|
        ensures Farewell(s, order[k], r.fields.out[n + k])
      {
        if k > 0 {
          assert order[k] == order[1..][k - 1];
          SameFarewell(s, s1, order[k], r.fields.out[n + k]);
        } else {
          assert r.fields.out[n] == r.fields.out[..n + 1][n];
        }
      }
      assert order == [order[0]] + order[1..];
    }
  }

  /** What `destroy` sends for one pending request. */
  predicate Farewell(s: State, q: string, o: R.Out) {
    OneRefusal(s.fields, [o], q, if q in s.captured then s.captured[q] else None, Str("[msfs-bridge] Relay destroyed"))
  }

  lemma SameFarewell(s: State, s1: State, q: string, o: R.Out)
    requires s1 == s.(fields := s.fields.(timers := s1.fields.timers, out := s1.fields.out)) && Farewell(s1, q, o)
    ensures Farewell(s, q, o)
  {
    hide IsAck;
  }

  lemma RefuseNext(s: State, q: string) returns (s1: State)
    requires q in s.fields.pending
    ensures s1 == SendAck(s.(fields := R.ClearTimeout(s.fields, s.fields.pending[q].timerId)), IdOf(s, q), false, None,
                          Some(Str(R.DESTROYED)), None, R.Settles(q))
    ensures s1 == s.(fields := s.fields.(timers := s.fields.timers - {s.fields.pending[q].timerId}, out := s1.fields.out))
    ensures |s1.fields.out| == |s.fields.out| + 1 && s1.fields.out[..|s.fields.out|] == s.fields.out
    ensures Farewell(s, q, s1.fields.out[|s.fields.out|])
  {
    AckFields(IdOf(s, q), false, None, Some(Str(R.DESTROYED)), None);
    hide AckFrame, IsAck;
    s1 := SendAck(s.(fields := R.ClearTimeout(s.fields, s.fields.pending[q].timerId)), IdOf(s, q), false, None,
                  Some(Str(R.DESTROYED)), None, R.Settles(q));
  }

  /** Once every request is refused, the only timers left are those the two fields name. */
  lemma RetryTimersLeft(s: State, order: seq<string>)
    requires RI.Consistent(s.fields) && RI.NeverStranded(s.fields) && forall q :: q in order <==> q in s.fields.pending
    ensures forall t :: t in RejectAll(s, order).fields.timers ==>
              Some(t) == s.fields.bindRetryTimerId || Some(t) == s.fields.wsRetryTimerId
  {
    RejectAllRefuses(s, order);
    hide RejectAll, Farewell;
    forall t | t in RejectAll(s, order).fields.timers
      ensures Some(t) == s.fields.bindRetryTimerId || Some(t) == s.fields.wsRetryTimerId
    {
      assert RI.HasRequest(s.fields, t) && R.Live(s.fields, t, s.fields.timers[t].kind);
    }
  }

  /** `destroy` refuses every pending command over the socket in use, in the order the table is walked. */
  lemma DestroyRefuses(s: State, i: R.Input, thrown: Option<string>)
    requires i.Destroyed? && R.Enabled(s.fields, i)
    ensures var out := Step(s, i, thrown).fields.out;
            |out| == |i.order| && forall k :: 0 <= k < |i.order| ==> Farewell(s, i.order[k], out[k])
  {
    var s0 := s.(fields := s.fields.(out := []));
    hide RejectAll, Farewell, Step;
    RejectAllRefuses(s0, i.order);
    StepDestroys(s, i, thrown);
    var r := RejectAll(s0, i.order);
    forall k | 0 <= k < |i.order|
      ensures Farewell(s, i.order[k], r.fields.out[k])
    {
      SameFarewell(s, s0, i.order[k], r.fields.out[k]);
    }
  }

  /** Afterwards nothing is left: no entry, timer, listener, handle or handler, and the socket is closing. */
  lemma DestroyLeavesNothing(s: State, i: R.Input, thrown: Option<string>)
    requires RI.Consistent(s.fields) && RI.NeverStranded(s.fields) && s.onWasmHandler && i.Destroyed? && R.Enabled(s.fields, i)
    ensures var f, s' := s.fields, Step(s, i, thrown);
            s' == s.(fields := f.(commBus := false, commBusBound := false, listeners := 0, bindRetryTimerId := None,
                                  ws := None, wsRetryTimerId := None, pending := map[], timers := map[], out := s'.fields.out,
                                  sockets := if f.ws.Some? && !f.sockets[f.ws.value].Closed?
                                             then f.sockets[f.ws.value := R.Closing] else f.sockets),
                     onWasmHandler := false)
  {
    var s0 := s.(fields := s.fields.(out := []));
    E.Cleared(s.fields);
    hide RI.Consistent, RI.NeverStranded, RejectAll, Farewell, R.CleanupWs, R.CancelBindRetry, Unhook, Step;
    RejectAllRefuses(s0, i.order);
    RetryTimersLeft(s0, i.order);
    StepDestroys(s, i, thrown);
    hide R.Enabled;
    var r := RejectAll(s0, i.order);
    LastTimersCleared(r.(fields := r.fields.(pending := map[])));
  }

  lemma StepDestroys(s: State, i: R.Input, thrown: Option<string>)
    requires i.Destroyed? && R.Enabled(s.fields, i)
    ensures var r := RejectAll(s.(fields := s.fields.(out := [])), i.order);
            var u := Unhook(r.(fields := r.fields.(pending := map[])));
            Step(s, i, thrown) == u.(fields := R.CleanupWs(R.CancelBindRetry(u.fields)))
  {
    hide RejectAll, R.CleanupWs, R.CancelBindRetry, Unhook;
  }

  lemma LastTimersCleared(s: State)
    requires forall t :: t in s.fields.timers ==> Some(t) == s.fields.bindRetryTimerId || Some(t) == s.fields.wsRetryTimerId
    requires s.fields.commBus && s.onWasmHandler && s.fields.listeners <= 1 && (s.fields.ws.Some? ==> s.fields.ws.value < |s.fields.sockets|)
    ensures var f, s' := s.fields, Unhook(s);
            s'.(fields := R.CleanupWs(R.CancelBindRetry(s'.fields)))
            == s.(fields := f.(commBus := false, commBusBound := false, listeners := 0, bindRetryTimerId := None,
                               ws := None, wsRetryTimerId := None, timers := map[],
                               sockets := if f.ws.Some? && !f.sockets[f.ws.value].Closed?
                                          then f.sockets[f.ws.value := R.Closing] else f.sockets),
                  onWasmHandler := false)
  {
    assert R.CleanupWs(R.CancelBindRetry(Unhook(s).fields)).timers == map[];
  }
}
