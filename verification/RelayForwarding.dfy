/** At-most-once forwarding: how far apart two envelopes for one command id must be. */
module RelayForwarding {
  import opened Base
  import opened Json
  import opened Wire
  import opened RequestIds
  import opened Relay
  import opened RelayInvariants
  import opened RelayHistory
  import D = Dedup

  ghost predicate NoCommandCalls(out: seq<Out>) {
    forall k :: 0 <= k < |out| && out[k].Call? ==> !CarriesCommand(out[k].envelope)
  }

  lemma {:induction false} NothingForwarded(out: seq<Out>, accepted: nat)
    requires NoCommandCalls(out)
    ensures Forwarded(out, accepted) == []
  {
    if out != [] {
      NothingForwarded(out[..|out| - 1], accepted);
    }
  }

  lemma {:induction false} RejectAllOnlySends(s: State, order: seq<string>)
    requires (forall q :: q in order ==> q in s.pending) && NoCommandCalls(s.out)
    ensures NoCommandCalls(RejectAll(s, order).out)
    decreases order
  {
    hide AckErr;
    if order != [] {
      var p := s.pending[order[0]];
      RejectAllOnlySends(WsSend(ClearTimeout(s, p.timerId), AckErr(p.cmdId, DESTROYED), Settles(order[0])), order[1..]);
    }
  }

  lemma EnvelopeCarries(requestId: string, payload: Json)
    ensures Envelope(requestId, payload).Get("requestId") == Some(Str(requestId))
    ensures Envelope(requestId, payload).Get("payload") == Some(payload)
  {
  }

  /** What the relay hands to the CommBus for a command it accepts. */
  function ForwardFor(s: State, i: Input, accepted: nat): seq<Forward> {
    if Offered(s, i).Some? && s.commBus
    then [Forward(accepted, Envelope(RequestId(i.clock, s.requestSeq + 1), i.msg))] else []
  }

  lemma BindOnlySends(s: State, onThrows: bool)
    requires NoCommandCalls(s.out)
    ensures NoCommandCalls(BindCommBus(s, onThrows).out)
  {
  }

  lemma DispatchForwards(s: State, q: string, cmd: Json, onThrows: bool, accepted: nat)
    requires q in s.pending && NoCommandCalls(s.out) && cmd.Tag() == Some("cmd")
    ensures Forwarded(Dispatch(s, q, cmd, onThrows).out, accepted)
         == if s.commBus then [Forward(accepted, Envelope(q, cmd))] else []
  {
    hide AckErr, Envelope;
    if s.commBus {
      hide BindCommBus, Forwarded;
      EnvelopeCarries(q, cmd);
      var s1 := BindCommBus(s, onThrows);
      BindOnlySends(s, onThrows);
      NothingForwarded(s1.out, accepted);
      Appended(s1.out, Call(Envelope(q, cmd)), accepted);
    } else {
      NothingForwarded(Dispatch(s, q, cmd, onThrows).out, accepted);
    }
  }

  lemma AcceptQuiet(s: State, cmdId: string, q: string)
    ensures var t := Accept(s, cmdId, q); t.out == s.out && t.commBus == s.commBus && q in t.pending
  {
    hide D.Mark;
  }

  lemma RepeatForwards(s: State, cmdId: string, accepted: nat)
    requires s.out == []
    ensures Forwarded(WsSend(s, AckDuplicate(cmdId), Duplicate).out, accepted) == []
  {
    hide AckDuplicate, CarriesCommand;
    NothingForwarded(WsSend(s, AckDuplicate(cmdId), Duplicate).out, accepted);
  }

  lemma CommandForwards(s: State, cmd: Json, clock: int, onThrows: bool, accepted: nat)
    requires s.out == [] && cmd.Tag() == Some("cmd")
    ensures Forwarded(OnHostCommand(s, cmd, clock, onThrows).out, accepted)
         == ForwardFor(s, HostSends(0, cmd, clock, onThrows), accepted)
  {
    hide Dispatch, Accept, AckDuplicate, RequestId, Envelope, Forwarded, CarriesCommand, WsSend, D.Has;
    match cmd.Get("id")
    case Some(Str(cmdId)) =>
      var q := RequestId(clock, s.requestSeq + 1);
      AcceptQuiet(s, cmdId, q);
      RepeatForwards(s, cmdId, accepted);
      DispatchForwards(Accept(s, cmdId, q), q, cmd, onThrows, accepted);
    case _ => assert Forwarded(s.out, accepted) == [] by { NothingForwarded(s.out, accepted); }
  }

  lemma HostForwards(s: State, k: SocketId, msg: Json, clock: int, onThrows: bool, accepted: nat)
    requires s.out == []
    ensures Forwarded(OnHostMessage(s, msg, clock, onThrows).out, accepted)
         == ForwardFor(s, HostSends(k, msg, clock, onThrows), accepted)
  {
    hide OnHostCommand, RequestId, Envelope, PongFrame;
    if msg.Tag() == Some("cmd") {
      CommandForwards(s, msg, clock, onThrows, accepted);
    } else {
      EnvelopeCarries(RequestId(clock, s.requestSeq + 1), msg);
      NothingForwarded(OnHostMessage(s, msg, clock, onThrows).out, accepted);
    }
  }

  lemma DestroySends(s: State, order: seq<string>)
    requires s.out == [] && forall q :: q in order ==> q in s.pending
    ensures NoCommandCalls(Destroy(s, order).out)
  {
    hide Destroy, RejectAll;
    RejectAllOnlySends(s, order);
    DestroyOutputs(s, order);
  }

  lemma OthersOnlySend(s: State, i: Input)
    requires s.out == [] && Enabled(s, i) && !i.HostSends?
    ensures NoCommandCalls(Handle(s, i).out)
  {
    hide Destroy, AckErr, AckOk, HelloFrame, ErrorText, CarriesCommand, RequestId, Print;
    if i.Destroyed? {
      hide Handle;
      DestroySends(s, i.order);
      assert Handle(s, i) == Destroy(s, i.order) by { HandlesDestroy(s, i); }
    } else if i.TimerFires? {
      hide OnWasmMessage, OnOpen;
    } else {
      hide RequestTimerFires, BindRetryFires, ConnectWs;
    }
  }

  lemma HandlesDestroy(s: State, i: Input)
    requires Enabled(s, i) && i.Destroyed?
    ensures Handle(s, i) == Destroy(s, i.order)
  {
    hide Destroy;
  }

  /** A handler forwards a command exactly when it accepts one and has a CommBus handle. */
  lemma StepForwards(s: State, i: Input, accepted: nat)
    requires Enabled(s, i)
    ensures Forwarded(Step(s, i).out, accepted) == ForwardFor(s, i, accepted)
  {
    var s0 := s.(out := []);
    assert Enabled(s0, i) && ForwardFor(s0, i, accepted) == ForwardFor(s, i, accepted);
    if i.HostSends? {
      hide OnHostMessage, ForwardFor, Forwarded;
      HostForwards(s0, i.socket, i.msg, i.clock, i.onThrows, accepted);
    } else {
      hide Handle, Forwarded;
      OthersOnlySend(s0, i);
      NothingForwarded(Handle(s0, i).out, accepted);
    }
  }

  /** The command id an envelope carries. */
  function CommandId(envelope: Json): Option<Json> {
    var payload := envelope.Get("payload");
    if payload.Some? then payload.value.Get("id") else None
  }

  /** Each forwarded envelope carries the command accepted just before it, in order. */
  ghost predicate InOrder(forwarded: seq<Forward>, ids: seq<string>) {
    && (forall f :: 0 <= f < |forwarded| ==>
          0 < forwarded[f].accepted <= |ids|
          && CommandId(forwarded[f].envelope) == Some(Str(ids[forwarded[f].accepted - 1])))
    && (forall f, g :: 0 <= f < g < |forwarded| ==> forwarded[f].accepted < forwarded[g].accepted)
  }

  ghost predicate Windowed(h: History, capacity: nat) {
    && h.relay.dedup == D.Ring(Last(h.ids, capacity), capacity)
    && D.Spaced(h.ids, capacity)
    && InOrder(h.forwarded, h.ids)
  }

  lemma InOrderExtends(forwarded: seq<Forward>, ids: seq<string>, id: string, envelope: Json)
    requires InOrder(forwarded, ids) && CommandId(envelope) == Some(Str(id))
    ensures InOrder(forwarded, ids + [id])
    ensures InOrder(forwarded + [Forward(|ids| + 1, envelope)], ids + [id])
  {
  }

  lemma StepWindowed(h: History, i: Input, capacity: nat)
    requires Windowed(h, capacity) && Enabled(h.relay, i)
    ensures Windowed(Advance(h, i), capacity)
  {
    hide Step, Forwarded, Settlements, RequestId, Envelope, InOrder, D.Spaced, Enabled, AcceptedBy;
    var offered := Offered(h.relay, i);
    StepSequence(h.relay, i);
    if offered.Some? {
      D.MarkExtendsWindow(h.ids, offered.value, capacity);
      var envelope := Envelope(RequestId(i.clock, h.relay.requestSeq + 1), i.msg);
      EnvelopeCarries(RequestId(i.clock, h.relay.requestSeq + 1), i.msg);
      StepForwards(h.relay, i, |h.ids| + 1);
      InOrderExtends(h.forwarded, h.ids, offered.value, envelope);
      assert h.forwarded + [] == h.forwarded;
    } else {
      StepForwards(h.relay, i, |h.ids|);
      assert h.forwarded + [] == h.forwarded;
    }
  }

  lemma {:induction false} RunWindowed(run: seq<History>, inputs: seq<Input>, cfg: Config, capacity: nat, k: nat)
    requires IsRun(run, inputs, cfg, capacity) && k < |run|
    ensures Windowed(run[k], capacity)
  {
    if k == 0 {
      hide NeverStranded, Settling, Enabled, Advance;
      InitialSettling(run[0], cfg, capacity);
      InitialHistory(run[0], cfg, capacity);
    } else {
      RunWindowed(run, inputs, cfg, capacity, k - 1);
      hide Windowed, Enabled, Advance;
      StepWindowed(run[k - 1], inputs[k - 1], capacity);
    }
  }

  lemma InitialHistory(h: History, cfg: Config, capacity: nat)
    requires Initial(h, cfg, capacity)
    ensures h.accepted == map[] && h.ids == [] && h.settled == [] && h.forwarded == []
  {
    hide Init;
  }

  /**
   * Two envelopes for one command id come from acceptances with at least `capacity` other accepted
   * ids, all different from it and from each other, in between.
   */
  lemma AtMostOnceForwarding(run: seq<History>, inputs: seq<Input>, cfg: Config, capacity: nat, k: nat, f: nat, g: nat)
    requires IsRun(run, inputs, cfg, capacity) && k < |run|
    requires f < g < |run[k].forwarded|
    requires CommandId(run[k].forwarded[f].envelope) == CommandId(run[k].forwarded[g].envelope)
    ensures var h := run[k];
            var first, second := h.forwarded[f].accepted - 1, h.forwarded[g].accepted - 1;
            && 0 <= first < second - capacity && second < |h.ids|
            && CommandId(h.forwarded[f].envelope) == Some(Str(h.ids[first]))
            && Distinct(h.ids[second - capacity..second])
            && h.ids[first] !in h.ids[second - capacity..second]
  {
    RunWindowed(run, inputs, cfg, capacity, k);
    hide IsRun;
    var h := run[k];
    D.SpacedSeparates(h.ids, capacity, h.forwarded[f].accepted - 1, h.forwarded[g].accepted - 1);
  }

  lemma KnownIdStep(s: State, i: Input, id: string)
    requires i.HostSends? && Enabled(s, i) && D.Has(s.dedup, id)
    requires i.msg.Tag() == Some("cmd") && i.msg.Get("id") == Some(Str(id))
    ensures var via := if s.ws.Some? && IsOpen(s, s.ws.value) then s.ws else None;
            Step(s, i) == s.(out := [Send(via, AckDuplicate(id), Duplicate)])
  {
    hide AckDuplicate, Accept, Dispatch, RequestId, D.Has;
  }

  lemma InLast(ids: seq<string>, n: nat, p: nat)
    requires p < |ids| && |ids| - p <= n
    ensures ids[p] in Last(ids, n)
  {
    var window := Last(ids, n);
    assert window[p - (|ids| - |window|)] == ids[p];
  }

  lemma RememberedId(h: History, capacity: nat, p: nat)
    requires Windowed(h, capacity) && p < |h.ids| && |h.ids| - p <= capacity
    ensures D.Has(h.relay.dedup, h.ids[p])
  {
    hide InOrder, D.Spaced;
    InLast(h.ids, capacity, p);
  }

  /** A copy that arrives within the window is answered as a duplicate and does nothing else. */
  lemma CopyOnlyAcknowledged(run: seq<History>, inputs: seq<Input>, cfg: Config, capacity: nat, k: nat, p: nat, i: Input)
    requires IsRun(run, inputs, cfg, capacity) && k < |run|
    requires p < |run[k].ids| && |run[k].ids| - p <= capacity
    requires i.HostSends? && Enabled(run[k].relay, i)
    requires i.msg.Tag() == Some("cmd") && i.msg.Get("id") == Some(Str(run[k].ids[p]))
    ensures var s := run[k].relay;
            var via := if s.ws.Some? && IsOpen(s, s.ws.value) then s.ws else None;
            Step(s, i) == s.(out := [Send(via, AckDuplicate(run[k].ids[p]), Duplicate)])
  {
    hide IsRun, Step, Windowed;
    RunWindowed(run, inputs, cfg, capacity, k);
    RememberedId(run[k], capacity, p);
    KnownIdStep(run[k].relay, i, run[k].ids[p]);
  }
}
