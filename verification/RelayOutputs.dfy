/** What one handler of the relay can send, and to whom. */
module RelayOutputs {
  import opened Base
  import opened Json
  import opened Wire
  import opened RequestIds
  import opened Relay
  import opened RelayHistory
  import D = Dedup

  /** Neither an ack nor a readiness event to the host. */
  predicate Neutral(frame: Json) {
    match Parse(frame)
    case Some(Ack(_)) => false
    case Some(Event(e)) => e.name != READY_EVENT
    case _ => true
  }

  /** A message from the module that the relay passes on as it is. */
  predicate PassedOn(s: State, i: Input, frame: Json) {
    i.WasmSends? && frame == i.msg && !(i.msg.Get("requestId").Some? && i.msg.Get("requestId").value.Str?)
  }

  /** The frame answers the pending request that the module's message names. */
  predicate AnsweredOk(s: State, i: Input, frame: Json) {
    i.WasmSends? &&
    match i.msg.Get("requestId")
    case Some(Str(q)) =>
      q in s.pending && i.msg.Get("ok") != Some(Bool(false))
      && frame == AckOk(s.pending[q].cmdId, i.msg.Get("response"))
    case _ => false
  }

  predicate AnsweredDuplicate(s: State, i: Input, frame: Json) {
    i.HostSends? && i.msg.Tag() == Some("cmd") &&
    match i.msg.Get("id")
    case Some(Str(id)) => D.Has(s.dedup, id) && frame == AckDuplicate(id)
    case _ => false
  }

  ghost predicate IsRefusal(frame: Json) {
    exists id, error :: frame == AckErr(id, error)
  }

  /** Every frame a handler sends, by its reason. */
  ghost predicate Explained(s: State, i: Input, bound: bool, frame: Json) {
    || Neutral(frame)
    || frame == Print(ReadyMsg(bound))
    || IsRefusal(frame)
    || AnsweredOk(s, i, frame)
    || AnsweredDuplicate(s, i, frame)
    || PassedOn(s, i, frame)
  }

  ghost predicate AllExplained(s: State, i: Input, bound: bool, out: seq<Out>) {
    forall k :: 0 <= k < |out| && out[k].Send? ==> Explained(s, i, bound, out[k].frame)
  }

  lemma HelloNeutral(cfg: Config, clock: int)
    ensures Neutral(HelloFrame(cfg, clock))
  {
    assert HelloFrame(cfg, clock).Tag() == Some("hello");
    hide HelloFrame, ParseHello, Decimal;
    assert Parse(HelloFrame(cfg, clock)) == ParseHello(HelloFrame(cfg, clock));
    HelloParsesAsHello(HelloFrame(cfg, clock));
  }

  lemma HelloParsesAsHello(j: Json)
    ensures ParseHello(j).Some? ==> ParseHello(j).value.Hello?
  {
  }

  lemma PongNeutral(clock: int)
    ensures Neutral(PongFrame(clock))
  {
    assert PongFrame(clock).Tag() == Some("pong");
  }

  lemma BindExplained(s: State, i: Input, t: State, onThrows: bool)
    requires AllExplained(s, i, t.commBusBound, t.out)
    requires !t.commBusBound ==> forall k :: 0 <= k < |t.out| ==> !t.out[k].Send?
    ensures AllExplained(s, i, BindCommBus(t, onThrows).commBusBound, BindCommBus(t, onThrows).out)
  {
    hide Neutral, IsRefusal, AnsweredOk, AnsweredDuplicate, PassedOn, Print;
  }

  lemma RefusalExplained(s: State, i: Input, t: State, q: string, error: string)
    requires t.out == [] && q in t.pending
    ensures AllExplained(s, i, t.commBusBound, Reject(t, q, error).out)
  {
    assert IsRefusal(AckErr(t.pending[q].cmdId, error));
    hide Neutral, IsRefusal, AnsweredOk, AnsweredDuplicate, PassedOn, AckErr;
  }

  lemma TimeoutExplained(s: State, i: Input, t: State, q: string, cmdId: string)
    requires t.out == []
    ensures AllExplained(s, i, t.commBusBound, RequestTimerFires(t, q, cmdId).out)
  {
    assert IsRefusal(AckErr(cmdId, if t.commBusBound then TIMED_OUT else NOT_BOUND));
    hide Neutral, IsRefusal, AnsweredOk, AnsweredDuplicate, PassedOn, AckErr;
  }

  lemma {:induction false} RejectAllExplained(s: State, i: Input, t: State, bound: bool, order: seq<string>)
    requires (forall q :: q in order ==> q in t.pending) && AllExplained(s, i, bound, t.out)
    ensures AllExplained(s, i, bound, RejectAll(t, order).out)
    decreases order
  {
    hide Explained, AckErr;
    if order != [] {
      var p := t.pending[order[0]];
      var frame := AckErr(p.cmdId, DESTROYED);
      assert Explained(s, i, bound, frame) by { RefusalIsExplained(s, i, bound, p.cmdId, DESTROYED); }
      RejectAllExplained(s, i, WsSend(ClearTimeout(t, p.timerId), frame, Settles(order[0])), bound, order[1..]);
    }
  }

  lemma RefusalIsExplained(s: State, i: Input, bound: bool, id: string, error: string)
    ensures Explained(s, i, bound, AckErr(id, error))
  {
    assert IsRefusal(AckErr(id, error));
    hide Neutral, IsRefusal, AnsweredOk, AnsweredDuplicate, PassedOn, AckErr;
  }

  lemma FreshExplained(s: State, i: Input, id: string, q: string)
    requires i.HostSends? && s.out == []
    ensures var t := Dispatch(Accept(s, id, q), q, i.msg, i.onThrows); AllExplained(s, i, t.commBusBound, t.out)
  {
    hide Explained, Accept, Dispatch;
    AcceptOut(s, id, q);
    DispatchExplained(s, i, Accept(s, id, q), q, i.msg);
  }

  lemma CommandExplained(s: State, i: Input)
    requires i.HostSends? && i.msg.Tag() == Some("cmd") && s.out == []
    ensures var t := OnHostCommand(s, i.msg, i.clock, i.onThrows); AllExplained(s, i, t.commBusBound, t.out)
  {
    hide Explained, AckDuplicate, D.Has, RequestId, Accept, Dispatch;
    match i.msg.Get("id")
    case Some(Str(id)) =>
      if D.Has(s.dedup, id) {
        DuplicateExplained(s, i, id);
      } else {
        FreshExplained(s, i, id, RequestId(i.clock, s.requestSeq + 1));
      }
    case _ =>
  }

  lemma DuplicateExplained(s: State, i: Input, id: string)
    requires i.HostSends? && i.msg.Tag() == Some("cmd") && i.msg.Get("id") == Some(Str(id)) && D.Has(s.dedup, id)
    ensures Explained(s, i, s.commBusBound, AckDuplicate(id))
  {
    hide Neutral, IsRefusal, AnsweredOk, PassedOn, AckDuplicate, D.Has;
    assert AnsweredDuplicate(s, i, AckDuplicate(id));
  }

  lemma AcceptOut(s: State, id: string, q: string)
    ensures Accept(s, id, q).out == s.out && q in Accept(s, id, q).pending
  {
  }

  lemma DispatchExplained(s: State, i: Input, t: State, q: string, cmd: Json)
    requires t.out == [] && q in t.pending && i.HostSends?
    ensures var r := Dispatch(t, q, cmd, i.onThrows); AllExplained(s, i, r.commBusBound, r.out)
  {
    hide Explained, Reject, BindCommBus, Envelope;
    if t.commBus {
      BindExplained(s, i, t, i.onThrows);
    } else {
      RefusalExplained(s, i, t, q, NOT_READY);
      RejectKeepsBound(t, q);
    }
  }

  lemma RejectKeepsBound(t: State, q: string)
    requires q in t.pending
    ensures Reject(t, q, NOT_READY).commBusBound == t.commBusBound
  {
    hide AckErr;
  }

  lemma HostExplained(s: State, i: Input)
    requires i.HostSends? && s.out == []
    ensures var t := OnHostMessage(s, i.msg, i.clock, i.onThrows); AllExplained(s, i, t.commBusBound, t.out)
  {
    if i.msg.Tag() == Some("cmd") {
      hide OnHostCommand, Explained;
      CommandExplained(s, i);
    } else {
      PongNeutral(i.clock);
      hide Neutral, IsRefusal, AnsweredOk, AnsweredDuplicate, PassedOn, PongFrame, Envelope, RequestId;
    }
  }

  lemma WasmExplained(s: State, i: Input)
    requires i.WasmSends? && s.out == []
    ensures var t := OnWasmMessage(s, i.msg); AllExplained(s, i, t.commBusBound, t.out)
  {
    match i.msg.Get("requestId")
    case Some(Str(q)) =>
      if q in s.pending {
        RefusalIsExplained(s, i, s.commBusBound, s.pending[q].cmdId, ErrorText(i.msg));
        if i.msg.Get("ok") != Some(Bool(false)) {
          assert AnsweredOk(s, i, AckOk(s.pending[q].cmdId, i.msg.Get("response")));
        }
        hide Neutral, IsRefusal, PassedOn, AnsweredOk, AnsweredDuplicate, AckErr, AckOk, ErrorText;
      }
    case _ =>
      assert PassedOn(s, i, i.msg);
      hide Neutral, IsRefusal, PassedOn, AnsweredOk, AnsweredDuplicate;
  }

  lemma TimerExplained(s: State, i: Input)
    requires i.TimerFires? && Enabled(s, i) && s.out == []
    ensures AllExplained(s, i, Handle(s, i).commBusBound, Handle(s, i).out)
  {
    hide Explained;
    var t := ClearTimeout(s, i.timer);
    match s.timers[i.timer].kind
    case RequestTimeout(q, c) =>
      TimeoutExplained(s, i, t, q, c);
      hide AckErr;
    case BindRetry =>
      BindExplained(s, i, t.(bindRetryTimerId := None), i.onThrows);
      hide Print;
    case Reconnect =>
  }

  lemma OpenExplained(s: State, i: Input, t: State, clock: int)
    requires t.out == []
    ensures AllExplained(s, i, OnOpen(t, clock).commBusBound, OnOpen(t, clock).out)
  {
    HelloNeutral(t.cfg, clock);
    hide Neutral, IsRefusal, AnsweredOk, AnsweredDuplicate, PassedOn, HelloFrame, Print;
  }

  lemma DestroyExplained(s: State, i: Input, order: seq<string>, bound: bool)
    requires s.out == [] && forall q :: q in order ==> q in s.pending
    ensures AllExplained(s, i, bound, Destroy(s, order).out)
  {
    hide Explained, Destroy, RejectAll;
    RejectAllExplained(s, i, s, bound, order);
    DestroyOutputs(s, order);
  }

  lemma HandleExplained(s: State, i: Input)
    requires Enabled(s, i) && s.out == []
    ensures AllExplained(s, i, Handle(s, i).commBusBound, Handle(s, i).out)
  {
    hide Explained, BindCommBus, OnOpen, OnHostMessage, OnWasmMessage, Reject, Destroy;
    match i
    case Continuation(onThrows) => BindExplained(s, i, s, onThrows);
    case TimerFires(_, _, _) => TimerExplained(s, i);
    case SocketOpens(k, clock) => OpenExplained(s, i, s.(sockets := s.sockets[k := Open]), clock);
    case SocketChanges(_, _) =>
    case SocketErrors(_) =>
    case SocketCloses(_) =>
    case HostSends(_, _, _, _) => HostExplained(s, i);
    case WasmSends(_) => WasmExplained(s, i);
    case CallRejects(q, reason) =>
      if q in s.pending { RefusalExplained(s, i, s, q, reason); RejectBound(s, q, reason); }
    case TimePasses(_) =>
    case Destroyed(order) => DestroyExplained(s, i, order, Destroy(s, order).commBusBound);
  }

  lemma RejectBound(s: State, q: string, reason: string)
    requires q in s.pending
    ensures Reject(s, q, reason).commBusBound == s.commBusBound
  {
    hide AckErr;
  }

  lemma ClearedExplains(s: State, t: State, i: Input, bound: bool, frame: Json)
    requires t == s.(out := []) && Explained(t, i, bound, frame)
    ensures Explained(s, i, bound, frame)
  {
    hide Neutral, IsRefusal, Print, AckOk, AckDuplicate;
  }

  /** Every frame of a handler is neutral, a readiness report of the new state, or a justified ack. */
  lemma StepExplained(s: State, i: Input)
    requires Enabled(s, i)
    ensures AllExplained(s, i, Step(s, i).commBusBound, Step(s, i).out)
  {
    hide Handle, Explained;
    var s0, s' := s.(out := []), Step(s, i);
    assert Enabled(s0, i);
    HandleExplained(s0, i);
    forall k | 0 <= k < |s'.out| && s'.out[k].Send?
      ensures Explained(s, i, s'.commBusBound, s'.out[k].frame)
    {
      ClearedExplains(s, s0, i, s'.commBusBound, s'.out[k].frame);
    }
  }

  // ---- CommBus calls ----

  /** The envelopes a handler can hand to the CommBus: the host's message under the next id. */
  ghost predicate CallsExplained(s: State, i: Input, out: seq<Out>) {
    forall k :: 0 <= k < |out| && out[k].Call? ==>
      && i.HostSends?
      && out[k].envelope == Envelope(RequestId(i.clock, s.requestSeq + 1), i.msg)
      && (i.msg.Tag() == Some("event") || (i.msg.Tag() == Some("cmd") && Offered(s, i).Some?))
  }

  lemma {:induction false} RejectAllNoCalls(s: State, order: seq<string>)
    requires (forall q :: q in order ==> q in s.pending) && forall k :: 0 <= k < |s.out| ==> s.out[k].Send?
    ensures forall k :: 0 <= k < |RejectAll(s, order).out| ==> RejectAll(s, order).out[k].Send?
    decreases order
  {
    hide AckErr;
    if order != [] {
      var p := s.pending[order[0]];
      RejectAllNoCalls(WsSend(ClearTimeout(s, p.timerId), AckErr(p.cmdId, DESTROYED), Settles(order[0])), order[1..]);
    }
  }

  lemma DestroyNoCalls(s: State, order: seq<string>)
    requires s.out == [] && forall q :: q in order ==> q in s.pending
    ensures forall k :: 0 <= k < |Destroy(s, order).out| ==> Destroy(s, order).out[k].Send?
  {
    hide Destroy, RejectAll;
    RejectAllNoCalls(s, order);
    DestroyOutputs(s, order);
  }

  lemma CommandCalls(s: State, i: Input)
    requires i.HostSends? && i.msg.Tag() == Some("cmd") && s.out == []
    ensures CallsExplained(s, i, OnHostCommand(s, i.msg, i.clock, i.onThrows).out)
  {
    hide RequestId, Envelope, AckDuplicate, Accept, Dispatch, D.Has;
    match i.msg.Get("id")
    case Some(Str(id)) =>
      var q := RequestId(i.clock, s.requestSeq + 1);
      AcceptOut(s, id, q);
      DispatchCalls(Accept(s, id, q), q, i.msg, i.onThrows);
    case _ =>
  }

  lemma DispatchCalls(t: State, q: string, cmd: Json, onThrows: bool)
    requires q in t.pending && t.out == []
    ensures var out := Dispatch(t, q, cmd, onThrows).out;
            forall k :: 0 <= k < |out| && out[k].Call? ==> out[k].envelope == Envelope(q, cmd)
  {
    hide Envelope, AckErr, Print;
  }

  lemma HostCalls(s: State, i: Input)
    requires i.HostSends? && s.out == []
    ensures CallsExplained(s, i, OnHostMessage(s, i.msg, i.clock, i.onThrows).out)
  {
    hide RequestId, Envelope, PongFrame, OnHostCommand, Offered;
    if i.msg.Tag() == Some("cmd") { CommandCalls(s, i); }
  }

  lemma OthersNoCalls(s: State, i: Input)
    requires Enabled(s, i) && !i.HostSends? && s.out == []
    ensures forall k :: 0 <= k < |Handle(s, i).out| ==> Handle(s, i).out[k].Send?
  {
    hide Destroy, AckErr, AckOk, HelloFrame, ErrorText, Print;
    if i.Destroyed? {
      hide OnWasmMessage, OnOpen, RequestTimerFires, BindRetryFires, ConnectWs, LoseWs, CallRejected;
      DestroyNoCalls(s, i.order);
    } else if i.TimerFires? {
      hide OnWasmMessage, OnOpen, LoseWs, CallRejected;
    } else {
      hide RequestTimerFires, BindRetryFires, ConnectWs;
    }
  }

  lemma StepCalls(s: State, i: Input)
    requires Enabled(s, i)
    ensures CallsExplained(s, i, Step(s, i).out)
  {
    var s0 := s.(out := []);
    assert Enabled(s0, i);
    if i.HostSends? {
      hide OnHostMessage, RequestId, Envelope;
      HostCalls(s0, i);
      assert Offered(s0, i) == Offered(s, i);
    } else {
      hide Handle;
      OthersNoCalls(s0, i);
    }
  }
}
