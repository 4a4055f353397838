/** Readiness agreement: the host's flag, and what is on its way to it, against the relay's bind state. */
module SystemReadiness {
  import opened Base
  import opened Json
  import opened Wire
  import opened System
  import opened SystemSoundness
  import Hub
  import HI = HubInvariants
  import Server
  import R = Relay
  import RI = RelayInvariants
  import RH = RelayHistory
  import RO = RelayOutputs
  import W = WasmBridge

  /** What a frame tells the host about readiness, if anything. */
  function Claims(frame: Json): Option<bool> {
    match Parse(frame)
    case Some(Event(e)) => if e.name == READY_EVENT then Some(ReadyValue(e.data)) else None
    case _ => None
  }

  /** The flag after the host has read all these frames in order. */
  function Told(flag: bool, frames: seq<Json>): bool
    decreases frames
  {
    if frames == [] then flag else Told(Claims(frames[0]).GetOr(flag), frames[1..])
  }

  lemma {:induction false} ToldAppend(flag: bool, first: seq<Json>, rest: seq<Json>)
    ensures Told(flag, first + rest) == Told(Told(flag, first), rest)
    decreases first
  {
    hide Claims;
    if first == [] {
      assert first + rest == rest;
    } else {
      assert (first + rest)[1..] == first[1..] + rest;
      ToldAppend(Claims(first[0]).GetOr(flag), first[1..], rest);
    }
  }

  lemma ToldOne(flag: bool, frame: Json)
    ensures Told(flag, [frame]) == Claims(frame).GetOr(flag)
  {
    hide Claims;
    assert [frame][1..] == [];
  }

  lemma ReadyClaims(bound: bool)
    ensures Claims(Print(ReadyMsg(bound))) == Some(bound)
  {
    hide Parse, Print;
    EventRoundTrip(EventPayload(READY_EVENT, Obj(map["ready" := Bool(bound)])));
  }

  lemma NeutralClaims(frame: Json)
    requires RO.Neutral(frame)
    ensures Claims(frame) == None
  {
    hide Parse;
  }

  lemma AckClaims(a: AckPayload)
    ensures Claims(Print(Ack(a))) == None
  {
    hide Parse, Print;
    AckRoundTrip(a);
  }

  // ---- One handler of a relay ----

  predicate IsConnecting(t: R.State, k: R.SocketId) {
    k < |t.sockets| && t.sockets[k].Connecting?
  }

  /** Nothing goes over a socket that has not opened. */
  ghost predicate Unsent(t: R.State, k: R.SocketId) {
    IsConnecting(t, k) ==> FramesVia(t.out, k) == []
  }

  /** What a handler has sent over socket k so far leaves a host that stood at `flag` up to date. */
  ghost predicate Announced(t: R.State, k: R.SocketId, flag: bool) {
    && Unsent(t, k)
    && (t.ws == Some(k) && R.IsOpen(t, k) ==> Told(flag, FramesVia(t.out, k)) == t.commBusBound)
  }

  lemma ViaAppend(out: seq<R.Out>, o: R.Out, k: R.SocketId)
    ensures FramesVia(out + [o], k)
         == if o.Send? && o.via == Some(k) then FramesVia(out, k) + [o.frame] else FramesVia(out, k)
  {
    assert (out + [o])[..|out|] == out;
  }

  lemma QuietSend(t: R.State, k: R.SocketId, flag: bool, frame: Json, cause: R.Cause)
    requires Announced(t, k, flag) && Claims(frame) == None
    ensures Announced(R.WsSend(t, frame, cause), k, flag)
  {
    hide Told, Claims, FramesVia;
    var t' := R.WsSend(t, frame, cause);
    ViaAppend(t.out, t'.out[|t.out|], k);
    ToldAppend(flag, FramesVia(t.out, k), [frame]);
    ToldOne(Told(flag, FramesVia(t.out, k)), frame);
  }

  /** Reporting readiness brings the host up to date wherever it stood. */
  lemma ReadySend(t: R.State, k: R.SocketId, flag: bool)
    requires Unsent(t, k)
    ensures Announced(R.SendReady(t), k, flag)
  {
    hide Told, Claims, FramesVia, Print;
    var t', frame := R.SendReady(t), Print(ReadyMsg(t.commBusBound));
    ViaAppend(t.out, t'.out[|t.out|], k);
    ToldAppend(flag, FramesVia(t.out, k), [frame]);
    ToldOne(Told(flag, FramesVia(t.out, k)), frame);
    ReadyClaims(t.commBusBound);
  }

  lemma BindAnnounces(t: R.State, k: R.SocketId, flag: bool, onThrows: bool)
    requires Announced(t, k, flag)
    ensures Announced(R.BindCommBus(t, onThrows), k, flag)
  {
    hide Told, FramesVia, R.SendReady;
    ReadySend(t.(listeners := t.listeners + 1, commBusBound := true), k, flag);
  }

  /** Nothing was sent and nothing the host is told about changed. */
  lemma NothingVia(k: R.SocketId)
    ensures FramesVia([], k) == []
  {
  }

  lemma SameAnnounced(t: R.State, t': R.State, k: R.SocketId, flag: bool)
    requires Announced(t, k, flag) && t'.out == t.out && t'.commBusBound == t.commBusBound
    requires t'.ws == Some(k) && R.IsOpen(t', k) ==> t.ws == Some(k) && R.IsOpen(t, k)
    requires IsConnecting(t', k) ==> IsConnecting(t, k) || t.out == []
    ensures Announced(t', k, flag)
  {
    hide Told, FramesVia;
    NothingVia(k);
  }

  lemma SettleAnnounces(t: R.State, k: R.SocketId, flag: bool, q: string, frame: Json)
    requires Announced(t, k, flag) && q in t.pending && Claims(frame) == None
    ensures Announced(R.Settle(t, q, frame), k, flag)
  {
    hide Told, FramesVia, Claims;
    var t1 := R.ClearTimeout(t.(pending := t.pending - {q}), t.pending[q].timerId);
    SameAnnounced(t, t1, k, flag);
    QuietSend(t1, k, flag, frame, R.Settles(q));
  }

  lemma RejectAnnounces(t: R.State, k: R.SocketId, flag: bool, q: string, error: string)
    requires Announced(t, k, flag) && q in t.pending
    ensures Announced(R.Reject(t, q, error), k, flag)
  {
    hide Announced, Claims, R.Settle, Print;
    AckClaims(AckPayload(t.pending[q].cmdId, false, Some(error), None, None));
    SettleAnnounces(t, k, flag, q, R.AckErr(t.pending[q].cmdId, error));
  }

  lemma CallAnnounces(t: R.State, k: R.SocketId, flag: bool, envelope: Json)
    requires Announced(t, k, flag)
    ensures Announced(t.(out := t.out + [R.Call(envelope)]), k, flag)
  {
    hide Told, FramesVia;
    ViaAppend(t.out, R.Call(envelope), k);
  }

  lemma DispatchAnnounces(t: R.State, k: R.SocketId, flag: bool, q: string, cmd: Json, onThrows: bool)
    requires Announced(t, k, flag) && q in t.pending
    ensures Announced(R.Dispatch(t, q, cmd, onThrows), k, flag)
  {
    hide Announced, R.BindCommBus, R.Reject, R.Envelope;
    if t.commBus {
      BindAnnounces(t, k, flag, onThrows);
      CallAnnounces(R.BindCommBus(t, onThrows), k, flag, R.Envelope(q, cmd));
    } else {
      RejectAnnounces(t, k, flag, q, R.NOT_READY);
    }
  }

  lemma FreshAnnounces(t: R.State, k: R.SocketId, flag: bool, id: string, q: string, cmd: Json, onThrows: bool)
    requires Announced(t, k, flag)
    ensures Announced(R.Dispatch(R.Accept(t, id, q), q, cmd, onThrows), k, flag)
  {
    hide Told, FramesVia, R.Dispatch, R.D.Mark;
    SameAnnounced(t, R.Accept(t, id, q), k, flag);
    hide R.Accept, Announced;
    DispatchAnnounces(R.Accept(t, id, q), k, flag, q, cmd, onThrows);
  }

  lemma DuplicateAnnounces(t: R.State, k: R.SocketId, flag: bool, id: string)
    requires Announced(t, k, flag)
    ensures Announced(R.WsSend(t, R.AckDuplicate(id), R.Duplicate), k, flag)
  {
    hide Announced, Claims, R.WsSend, Print;
    AckClaims(AckPayload(id, true, None, Some(Null), Some(true)));
    QuietSend(t, k, flag, R.AckDuplicate(id), R.Duplicate);
  }

  lemma CommandAnnounces(t: R.State, k: R.SocketId, flag: bool, cmd: Json, clock: int, onThrows: bool)
    requires Announced(t, k, flag)
    ensures Announced(R.OnHostCommand(t, cmd, clock, onThrows), k, flag)
  {
    hide Announced, R.Dispatch, R.Accept, R.WsSend, R.AckDuplicate, RequestIds.RequestId, R.D.Has;
    match cmd.Get("id")
    case Some(Str(id)) =>
      if R.D.Has(t.dedup, id) {
        DuplicateAnnounces(t, k, flag, id);
      } else {
        FreshAnnounces(t, k, flag, id, RequestIds.RequestId(clock, t.requestSeq + 1), cmd, onThrows);
      }
    case _ =>
  }

  lemma EventAnnounces(t: R.State, k: R.SocketId, flag: bool, event: Json, clock: int)
    requires Announced(t, k, flag)
    ensures Announced(R.OnHostEvent(t, event, clock), k, flag)
  {
    hide Told, FramesVia, R.Envelope, RequestIds.RequestId;
    var envelope := R.Envelope(RequestIds.RequestId(clock, t.requestSeq + 1), event);
    CallAnnounces(t, k, flag, envelope);
    if t.commBus {
      SameAnnounced(t.(out := t.out + [R.Call(envelope)]), R.OnHostEvent(t, event, clock), k, flag);
    }
  }

  lemma HostAnnounces(t: R.State, k: R.SocketId, flag: bool, msg: Json, clock: int, onThrows: bool)
    requires Announced(t, k, flag)
    ensures Announced(R.OnHostMessage(t, msg, clock, onThrows), k, flag)
  {
    hide Announced, R.OnHostCommand, R.OnHostEvent, R.WsSend, R.PongFrame, Claims;
    RO.PongNeutral(clock);
    NeutralClaims(R.PongFrame(clock));
    QuietSend(t, k, flag, R.PongFrame(clock), R.Keepalive);
    CommandAnnounces(t, k, flag, msg, clock, onThrows);
    EventAnnounces(t, k, flag, msg, clock);
  }

  lemma WasmAnnounces(t: R.State, k: R.SocketId, flag: bool, msg: Json)
    requires Announced(t, k, flag) && Claims(msg) == None
    ensures Announced(R.OnWasmMessage(t, msg), k, flag)
  {
    hide Announced, Claims, R.Reject, R.Settle, R.WsSend, R.ErrorText, Print;
    match msg.Get("requestId")
    case Some(Str(q)) =>
      if q in t.pending {
        RejectAnnounces(t, k, flag, q, R.ErrorText(msg));
        AckClaims(AckPayload(t.pending[q].cmdId, true, None, msg.Get("response"), None));
        SettleAnnounces(t, k, flag, q, R.AckOk(t.pending[q].cmdId, msg.Get("response")));
      }
    case _ =>
      QuietSend(t, k, flag, msg, R.Forwards);
  }

  lemma TimerAnnounces(t: R.State, k: R.SocketId, flag: bool, i: R.Input)
    requires Announced(t, k, flag) && i.TimerFires? && R.Enabled(t, i) && t.out == []
    ensures Announced(R.Handle(t, i), k, flag)
  {
    hide Told, FramesVia, Claims, Print, R.BindCommBus;
    var t1 := R.ClearTimeout(t, i.timer);
    SameAnnounced(t, t1, k, flag);
    match t.timers[i.timer].kind
    case RequestTimeout(q, c) =>
      var error := if t1.commBusBound then R.TIMED_OUT else R.NOT_BOUND;
      AckClaims(AckPayload(c, false, Some(error), None, None));
      SameAnnounced(t1, t1.(pending := t1.pending - {q}), k, flag);
      QuietSend(t1.(pending := t1.pending - {q}), k, flag, R.AckErr(c, error), R.Settles(q));
    case BindRetry =>
      var t2 := t1.(bindRetryTimerId := None);
      SameAnnounced(t1, t2, k, flag);
      BindAnnounces(t2, k, flag, i.onThrows);
      var t3 := if t2.commBus then R.BindCommBus(t2, i.onThrows) else t2;
      SameAnnounced(t3, R.ScheduleBindRetry(t3), k, flag);
    case Reconnect =>
      SameAnnounced(t1, R.ConnectWs(t1.(wsRetryTimerId := None), i.ctorThrows), k, flag);
  }

  lemma UnsentSend(t: R.State, k: R.SocketId, frame: Json, cause: R.Cause)
    requires Unsent(t, k)
    ensures Unsent(R.WsSend(t, frame, cause), k)
  {
    hide FramesVia;
    var t' := R.WsSend(t, frame, cause);
    ViaAppend(t.out, t'.out[|t.out|], k);
  }

  lemma OpenAnnounces(t: R.State, k: R.SocketId, flag: bool, clock: int)
    requires t.out == []
    ensures Announced(R.OnOpen(t, clock), k, flag)
  {
    assert Unsent(t, k);
    hide Announced, R.SendReady, R.WsSend, R.HelloFrame, Unsent;
    UnsentSend(t, k, R.HelloFrame(t.cfg, clock), R.Greeting);
    ReadySend(R.WsSend(t, R.HelloFrame(t.cfg, clock), R.Greeting), k, flag);
  }

  /** Before `destroy`, no handler leaves the host of the current open socket out of date. */
  lemma HandleAnnounces(t: R.State, i: R.Input, k: R.SocketId, flag: bool)
    requires Announced(t, k, flag) && R.Enabled(t, i) && !i.Destroyed? && t.out == []
    requires i.WasmSends? ==> Claims(i.msg) == None
    ensures Announced(R.Handle(t, i), k, flag)
  {
    hide Told, FramesVia, Claims, R.BindCommBus, R.OnOpen, R.OnHostMessage, R.OnWasmMessage, R.Reject;
    match i
    case Continuation(onThrows) => BindAnnounces(t, k, flag, onThrows);
    case TimerFires(_, _, _) => TimerAnnounces(t, k, flag, i);
    case SocketOpens(j, clock) => OpenAnnounces(t.(sockets := t.sockets[j := R.Open]), k, flag, clock);
    case SocketChanges(_, _) => SameAnnounced(t, R.Handle(t, i), k, flag);
    case SocketErrors(_) => SameAnnounced(t, R.LoseWs(t), k, flag);
    case SocketCloses(_) => SameAnnounced(t, R.LoseWs(t), k, flag);
    case HostSends(_, msg, clock, onThrows) => HostAnnounces(t, k, flag, msg, clock, onThrows);
    case WasmSends(msg) => WasmAnnounces(t, k, flag, msg);
    case CallRejects(q, reason) => if q in t.pending { RejectAnnounces(t, k, flag, q, reason); }
    case TimePasses(_) => SameAnnounced(t, R.Handle(t, i), k, flag);
  }

  lemma StepAnnounces(t: R.State, i: R.Input, k: R.SocketId, flag: bool)
    requires t.ws == Some(k) && R.IsOpen(t, k) ==> flag == t.commBusBound
    requires R.Enabled(t, i) && !i.Destroyed? && (i.WasmSends? ==> Claims(i.msg) == None)
    ensures Announced(R.Step(t, i), k, flag)
  {
    hide R.Handle, Claims;
    var t0 := t.(out := []);
    assert Told(flag, FramesVia(t0.out, k)) == flag;
    HandleAnnounces(t0, i, k, flag);
  }

  lemma RefusalClaims(frame: Json)
    requires RO.IsRefusal(frame)
    ensures Claims(frame) == None
  {
    var id, error :| frame == R.AckErr(id, error);
    hide Claims;
    AckClaims(AckPayload(id, false, Some(error), None, None));
  }

  lemma AnsweredClaims(t: R.State, i: R.Input, frame: Json)
    requires RO.AnsweredOk(t, i, frame) || RO.AnsweredDuplicate(t, i, frame)
    ensures Claims(frame) == None
  {
    hide Claims, Print;
    if RO.AnsweredOk(t, i, frame) {
      var q := i.msg.Get("requestId").value.s;
      AckClaims(AckPayload(t.pending[q].cmdId, true, None, i.msg.Get("response"), None));
    } else {
      AckClaims(AckPayload(i.msg.Get("id").value.s, true, None, Some(Null), Some(true)));
    }
  }

  /** A frame either says nothing about readiness or says what is so after the handler. */
  lemma ExplainedClaims(t: R.State, i: R.Input, bound: bool, frame: Json)
    requires RO.Explained(t, i, bound, frame) && (i.WasmSends? ==> Claims(i.msg) == None)
    ensures Claims(frame) == None || Claims(frame) == Some(bound)
  {
    hide Claims, RO.Neutral, RO.IsRefusal, RO.AnsweredOk, RO.AnsweredDuplicate, Print;
    if RO.Neutral(frame) { NeutralClaims(frame); }
    else if frame == Print(ReadyMsg(bound)) { ReadyClaims(bound); }
    else if RO.IsRefusal(frame) { RefusalClaims(frame); }
    else if RO.AnsweredOk(t, i, frame) || RO.AnsweredDuplicate(t, i, frame) { AnsweredClaims(t, i, frame); }
  }

  // ---- The invariant ----

  function RelayOf(s: State, l: Link): R.State
    requires l.relay in s.relays
  {
    s.relays[l.relay].relay
  }

  predicate IsSocket(s: State, l: Link) {
    l.relay in s.relays && l.socket < |s.relays[l.relay].relay.sockets|
  }

  function Flag(h: Hub.State, c: ClientId): bool {
    c in h.clients && h.clients[c].ready
  }

  /** The relay's current socket, open. */
  predicate Current(t: R.State, k: R.SocketId) {
    t.ws == Some(k) && R.IsOpen(t, k)
  }

  /**
   * Readiness over one socket, given the flag the host holds for it; void after `destroy`. `heard`:
   * its frames reach a flag, that of its client or of the client it has yet to get.
   */
  ghost predicate LinkAgreed(t: R.State, k: R.SocketId, up: seq<Json>, flag: bool, heard: bool) {
    t.commBus ==>
      && (forall j :: 0 <= j < |up| && Claims(up[j]) == Some(true) ==> t.commBusBound)
      && (flag ==> t.commBusBound)
      && (IsConnecting(t, k) ==> up == [] && !flag)
      && (heard && Current(t, k) ==> Told(flag, up) == t.commBusBound)
  }

  ghost predicate ConnAgreed(s: State, c: ClientId)
    requires c in s.conns
  {
    var l := s.conns[c].link;
    && IsSocket(s, l) && Hub.Used(s.host.hub, c)
    && LinkAgreed(RelayOf(s, l), l.socket, UpOf(s, l), Flag(s.host.hub, c), c in s.host.hub.clients)
  }

  /** A socket the host has not registered a client for. */
  ghost predicate Unclaimed(s: State, l: Link) {
    IsSocket(s, l) && forall c :: c in s.conns ==> s.conns[c].link != l
  }

  /** Its frames wait for a client that will start out not ready. */
  ghost predicate WaitsAgreed(s: State, l: Link)
    requires IsSocket(s, l)
  {
    LinkAgreed(RelayOf(s, l), l.socket, UpOf(s, l), false, true)
  }

  ghost predicate LinksOk(s: State) {
    && (forall l :: l in s.ups ==> IsSocket(s, l))
    && (forall b, c :: b in s.conns && c in s.conns && b != c ==> s.conns[b].link != s.conns[c].link)
  }

  ghost predicate DrawnOk(h: Hub.State) {
    forall c :: c in h.drawn ==> c < h.nextId
  }

  ghost predicate WasmQuiet(s: State) {
    forall r, msg :: r in s.buses && msg in s.buses[r].fromWasm ==> Claims(msg) == None
  }

  ghost predicate RelaysAlive(s: State) {
    && s.relays.Keys == s.buses.Keys
    && (forall r :: r in s.relays ==>
          RI.Consistent(s.relays[r].relay) && (s.relays[r].relay.commBus ==> RI.NeverStranded(s.relays[r].relay)))
  }

  ghost predicate Agreed(s: State) {
    && RelaysAlive(s) && WasmQuiet(s)
    && LinksOk(s) && DrawnOk(s.host.hub)
    && (forall c :: c in s.conns ==> ConnAgreed(s, c))
    && (forall l :: Unclaimed(s, l) ==> WaitsAgreed(s, l))
  }

  // ---- Steps of a relay ----

  lemma CommBusOnlyGoes(t: R.State, i: R.Input)
    requires R.Enabled(t, i)
    ensures R.Step(t, i).commBus ==> t.commBus && !i.Destroyed?
  {
    hide R.RejectAll, R.OnHostCommand, RequestIds.RequestId, R.Envelope, Print, R.HelloFrame;
    if i.HostSends? && i.msg.Tag() == Some("cmd") { CommandKeepsBus(t.(out := []), i.msg, i.clock, i.onThrows); }
  }

  lemma CommandKeepsBus(t: R.State, cmd: Json, clock: int, onThrows: bool)
    ensures R.OnHostCommand(t, cmd, clock, onThrows).commBus == t.commBus
    ensures R.OnHostCommand(t, cmd, clock, onThrows).sockets == t.sockets
  {
    hide RequestIds.RequestId, R.Envelope, Print, R.D.Has, R.D.Mark;
  }

  lemma SocketsOnlyGrow(t: R.State, i: R.Input, k: R.SocketId)
    requires R.Enabled(t, i) && k < |t.sockets| && !i.Destroyed?
    ensures |t.sockets| <= |R.Step(t, i).sockets|
    ensures IsConnecting(R.Step(t, i), k) ==> IsConnecting(t, k)
  {
    hide R.OnHostCommand, RequestIds.RequestId, R.Envelope, Print, R.HelloFrame;
    if i.HostSends? && i.msg.Tag() == Some("cmd") { CommandKeepsBus(t.(out := []), i.msg, i.clock, i.onThrows); }
  }

  lemma CommandKeepsSockets(t: R.State, i: R.Input)
    requires i.HostSends?
    ensures R.OnHostMessage(t, i.msg, i.clock, i.onThrows).sockets == t.sockets
  {
    hide R.OnHostCommand, RequestIds.RequestId, R.Envelope, Print;
    if i.msg.Tag() == Some("cmd") { CommandKeepsBus(t, i.msg, i.clock, i.onThrows); }
  }

  /** A socket that a handler makes is still connecting afterwards. */
  lemma NewSocketConnects(t: R.State, i: R.Input, k: R.SocketId)
    requires R.Enabled(t, i) && !i.Destroyed? && |t.sockets| <= k < |R.Step(t, i).sockets|
    ensures IsConnecting(R.Step(t, i), k)
  {
    if i.HostSends? {
      CommandKeepsSockets(t.(out := []), i);
      hide R.OnHostMessage;
    } else {
      hide R.OnWasmMessage, R.OnOpen, R.CallRejected, R.RequestTimerFires, R.BindRetryFires;
      OthersKeepSockets(t.(out := []), i);
    }
  }

  lemma OthersKeepSockets(t: R.State, i: R.Input)
    ensures i.WasmSends? ==> R.OnWasmMessage(t, i.msg).sockets == t.sockets
    ensures i.SocketOpens? ==> forall u: R.State :: R.OnOpen(u, i.clock).sockets == u.sockets
    ensures i.CallRejects? ==> R.CallRejected(t, i.requestId, i.reason).sockets == t.sockets
    ensures forall u: R.State, q, c :: R.RequestTimerFires(u, q, c).sockets == u.sockets
    ensures forall u: R.State, onThrows :: R.BindRetryFires(u, onThrows).sockets == u.sockets
  {
    hide Print, R.ErrorText, R.HelloFrame;
  }

  lemma DestroyKeepsSockets(t: R.State, order: seq<string>)
    requires forall q :: q in order ==> q in t.pending
    ensures |R.Destroy(t, order).sockets| == |t.sockets|
  {
    hide R.RejectAll;
    RI.RejectAllEffect(t, order);
  }

  lemma ViaClaims(t: R.State, i: R.Input, k: R.SocketId, j: nat)
    requires R.Enabled(t, i) && (i.WasmSends? ==> Claims(i.msg) == None)
    requires j < |FramesVia(R.Step(t, i).out, k)|
    ensures Claims(FramesVia(R.Step(t, i).out, k)[j]) in {None, Some(R.Step(t, i).commBusBound)}
  {
    hide Claims, R.Step, RO.Explained, R.Enabled, FramesVia;
    var t' := R.Step(t, i);
    FramesComeFromSends(t'.out, k, j);
    RO.StepExplained(t, i);
    var m: nat :| m < |t'.out| && t'.out[m].Send? && t'.out[m].via == Some(k) && t'.out[m].frame == FramesVia(t'.out, k)[j];
    ExplainedClaims(t, i, t'.commBusBound, t'.out[m].frame);
  }

  lemma LinkStep(t: R.State, i: R.Input, k: R.SocketId, up: seq<Json>, flag: bool, heard: bool)
    requires R.Enabled(t, i) && k < |t.sockets| && (i.WasmSends? ==> Claims(i.msg) == None)
    requires LinkAgreed(t, k, up, flag, heard)
    ensures LinkAgreed(R.Step(t, i), k, up + FramesVia(R.Step(t, i).out, k), flag, heard)
  {
    hide Claims, R.Step, R.Enabled, FramesVia, Told;
    var t' := R.Step(t, i);
    var via := FramesVia(t'.out, k);
    CommBusOnlyGoes(t, i);
    if t'.commBus {
      if t.commBusBound { RI.BoundIsStable(t, i); }
      SocketsOnlyGrow(t, i, k);
      var told := if heard then Told(flag, up) else t.commBusBound;
      StepAnnounces(t, i, k, told);
      ToldAppend(flag, up, via);
      forall j | 0 <= j < |up + via| && Claims((up + via)[j]) == Some(true) ensures t'.commBusBound {
        if j >= |up| { ViaClaims(t, i, k, j - |up|); }
      }
    }
  }

  /** Nothing has gone over a socket that the handler just made. */
  lemma NewLink(t: R.State, i: R.Input, k: R.SocketId)
    requires R.Enabled(t, i) && |t.sockets| <= k < |R.Step(t, i).sockets| && (i.WasmSends? ==> Claims(i.msg) == None)
    ensures LinkAgreed(R.Step(t, i), k, [] + FramesVia(R.Step(t, i).out, k), false, true)
  {
    hide Claims, R.Step, R.Enabled, FramesVia, Told;
    CommBusOnlyGoes(t, i);
    if R.Step(t, i).commBus {
      NewSocketConnects(t, i, k);
      StepAnnounces(t, i, k, false);
    }
  }

  lemma RelayStepAlive(s: State, r: RelayId, i: R.Input)
    requires RelaysAlive(s) && r in s.relays && R.Enabled(s.relays[r].relay, i)
    ensures RelaysAlive(RelayStep(s, r, i))
  {
    hide R.Step, R.Enabled, RelayStep, RH.Advance, RH.AcceptedBy, CallsIn, Carry, RI.Consistent, RI.NeverStranded;
    RelayStepFields(s, r, i);
    RI.StepConsistent(s.relays[r].relay, i);
    CommBusOnlyGoes(s.relays[r].relay, i);
    if s.relays[r].relay.commBus && !i.Destroyed? { RI.StepNeverStranded(s.relays[r].relay, i); }
  }

  /** What the queues of the sockets hold after a relay's step. */
  lemma CarriedUps(s: State, r: RelayId, i: R.Input, l: Link)
    requires LinksOk(s) && r in s.relays && r in s.buses && R.Enabled(s.relays[r].relay, i)
    requires IsSocket(RelayStep(s, r, i), l)
    ensures UpOf(RelayStep(s, r, i), l)
         == if l.relay == r then UpOf(s, l) + FramesVia(R.Step(s.relays[r].relay, i).out, l.socket) else UpOf(s, l)
    ensures !IsSocket(s, l) ==> UpOf(s, l) == []
  {
    hide R.Step, R.Enabled, RelayStep, RH.Advance, RH.AcceptedBy, CallsIn, FramesVia;
    RelayStepFields(s, r, i);
  }

  lemma CarriedLinks(s: State, r: RelayId, i: R.Input)
    requires LinksOk(s) && r in s.relays && r in s.buses && R.Enabled(s.relays[r].relay, i)
    ensures LinksOk(RelayStep(s, r, i))
  {
    hide R.Step, R.Enabled, RelayStep, RH.Advance, RH.AcceptedBy, CallsIn, FramesVia;
    RelayStepFields(s, r, i);
    var t := RelayStep(s, r, i);
    forall l | l in t.ups ensures IsSocket(t, l) {
      if l in s.ups && l.relay == r { SocketStays(s.relays[r].relay, i, l.socket); }
    }
  }

  /** One socket across a relay's step, old or just made. */
  lemma SocketStep(s: State, r: RelayId, i: R.Input, l: Link, flag: bool, heard: bool)
    requires LinksOk(s) && r in s.relays && r in s.buses && R.Enabled(s.relays[r].relay, i)
    requires i.WasmSends? ==> Claims(i.msg) == None
    requires IsSocket(RelayStep(s, r, i), l)
    requires if IsSocket(s, l) then LinkAgreed(RelayOf(s, l), l.socket, UpOf(s, l), flag, heard) else !flag && heard
    ensures LinkAgreed(RelayOf(RelayStep(s, r, i), l), l.socket, UpOf(RelayStep(s, r, i), l), flag, heard)
  {
    hide R.Step, R.Enabled, RelayStep, RH.Advance, RH.AcceptedBy, CallsIn, Carry, LinkAgreed, Claims, FramesVia, LinksOk, UpOf;
    RelayStepFields(s, r, i);
    CarriedUps(s, r, i, l);
    if l.relay == r {
      if IsSocket(s, l) {
        LinkStep(RelayOf(s, l), i, l.socket, UpOf(s, l), flag, heard);
      } else {
        NewLink(s.relays[r].relay, i, l.socket);
      }
    }
  }

  lemma RelayStepAgreed(s: State, r: RelayId, i: R.Input)
    requires Agreed(s) && r in s.relays && R.Enabled(s.relays[r].relay, i)
    requires i.WasmSends? ==> Claims(i.msg) == None
    ensures Agreed(RelayStep(s, r, i))
  {
    hide R.Step, R.Enabled, RelayStep, RH.Advance, RH.AcceptedBy, CallsIn, Carry, RelaysAlive, LinkAgreed, Claims, FramesVia, UpOf, LinksOk;
    AliveKeys(s);
    var t := RelayStep(s, r, i);
    RelayStepFields(s, r, i);
    RelayStepAlive(s, r, i);
    CarriedLinks(s, r, i);
    forall c | c in t.conns ensures ConnAgreed(t, c) {
      assert ConnAgreed(s, c);
      var l := s.conns[c].link;
      if l.relay == r { SocketStays(RelayOf(s, l), i, l.socket); }
      SocketStep(s, r, i, l, Flag(s.host.hub, c), c in s.host.hub.clients);
    }
    forall l | Unclaimed(t, l) ensures WaitsAgreed(t, l) {
      if IsSocket(s, l) { assert Unclaimed(s, l) && WaitsAgreed(s, l); }
      SocketStep(s, r, i, l, false, true);
    }
  }

  lemma AliveKeys(s: State)
    requires RelaysAlive(s)
    ensures s.relays.Keys == s.buses.Keys
  {
    hide RI.Consistent, RI.NeverStranded;
  }

  lemma SocketStays(t: R.State, i: R.Input, k: R.SocketId)
    requires R.Enabled(t, i) && k < |t.sockets|
    ensures k < |R.Step(t, i).sockets|
  {
    if i.Destroyed? {
      hide R.Destroy;
      DestroyKeepsSockets(t.(out := []), i.order);
    } else {
      hide R.Step;
      SocketsOnlyGrow(t, i, k);
    }
  }

  // ---- Steps of the host ----

  /** Clients may go; flags of those that stay are kept; a new client is not ready. */
  ghost predicate FlagsKept(g: Hub.State, h: Hub.State) {
    && (DrawnOk(g) ==> DrawnOk(h))
    && (forall c :: Hub.Used(g, c) ==> Hub.Used(h, c))
    && (forall c :: c in h.clients && Hub.Used(g, c) ==> c in g.clients && h.clients[c].ready == g.clients[c].ready)
  }

  lemma HubFlags(h: Hub.State, i: Hub.Input)
    requires Hub.Enabled(h, i) && !i.DoReady?
    ensures FlagsKept(h, Hub.Step(h, i))
  {
    if HI.Elsewhere(i) {
      HI.ElsewhereClients(h, i);
      hide Hub.Step, Hub.Enabled;
    } else {
      hide Hub.Dead;
    }
  }

  lemma LinkLess(t: R.State, k: R.SocketId, up: seq<Json>, flag: bool)
    requires LinkAgreed(t, k, up, flag, true)
    ensures LinkAgreed(t, k, up, false, false)
  {
    hide Claims, Told;
  }

  lemma HostStepAgreed(s: State, i: Hub.Input)
    requires Agreed(s) && Hub.Enabled(s.host.hub, i) && !i.DoReady?
    ensures Agreed(HostStep(s, i))
  {
    hide Hub.Step, Hub.Enabled, RelaysAlive, LinkAgreed, Claims, LinksOk, Hub.Used, DrawnOk;
    HubFlags(s.host.hub, i);
    var t := HostStep(s, i);
    SameRelays(s, t);
    forall c | c in t.conns ensures ConnAgreed(t, c) {
      assert ConnAgreed(s, c);
      var l := s.conns[c].link;
      if c in s.host.hub.clients && c !in t.host.hub.clients {
        LinkLess(RelayOf(s, l), l.socket, UpOf(s, l), Flag(s.host.hub, c));
      }
    }
    SameWaiting(s, t);
  }

  /** Sockets nobody registered are as they were. */
  lemma SameWaiting(s: State, t: State)
    requires forall l :: Unclaimed(s, l) ==> WaitsAgreed(s, l)
    requires t.relays == s.relays && t.ups == s.ups && t.conns.Keys >= s.conns.Keys
    requires forall c :: c in s.conns ==> t.conns[c].link == s.conns[c].link
    ensures forall l :: Unclaimed(t, l) ==> WaitsAgreed(t, l)
  {
    hide LinkAgreed;
    forall l | Unclaimed(t, l) ensures WaitsAgreed(t, l) {
      forall c | c in s.conns ensures s.conns[c].link != l { assert c in t.conns.Keys; }
      assert Unclaimed(s, l) && WaitsAgreed(s, l);
    }
  }

  /** Reading a frame moves what it says from the queue into the flag. */
  lemma LinkRead(t: R.State, k: R.SocketId, up: seq<Json>, flag: bool, heard: bool)
    requires LinkAgreed(t, k, up, flag, heard) && up != []
    requires flag ==> heard
    ensures LinkAgreed(t, k, up[1..], if heard then Claims(up[0]).GetOr(flag) else false, heard)
  {
    hide Claims;
  }

  lemma TextFlag(c: ClientId, frame: Json)
    ensures match Server.TextInput(c, frame)
            case Some(DoReady(k, ready)) => k == c && Claims(frame) == Some(ready)
            case _ => Claims(frame) == None
  {
    hide Parse, Print;
  }

  /** The hub after a read: one flag is what the frame said, the rest as before. */
  lemma ReadFlags(s: State, c: ClientId)
    requires c in s.conns && UpOf(s, s.conns[c].link) != []
    ensures var t, l := HostRead(s, c), s.conns[c].link;
            && t.relays == s.relays && t.buses == s.buses && t.conns == s.conns
            && t.ups == s.ups[l := UpOf(s, l)[1..]]
            && t.host.hub.nextId == s.host.hub.nextId && t.host.hub.drawn == s.host.hub.drawn
            && t.host.hub.clients.Keys == s.host.hub.clients.Keys
            && (forall b :: b in s.host.hub.clients ==>
                  t.host.hub.clients[b].ready ==
                    if b == c then Claims(UpOf(s, l)[0]).GetOr(s.host.hub.clients[b].ready)
                    else s.host.hub.clients[b].ready)
  {
    hide Claims, Server.TextInput, Print, Hub.Enabled;
    var frame := UpOf(s, s.conns[c].link)[0];
    TextFlag(c, frame);
    TouchFlags(s.host.hub, c);
    ReadOneFlags(Hub.Touch(s.host.hub, c), c, frame);
  }

  ghost predicate FlagIs(g: Hub.State, h: Hub.State, c: ClientId, said: Option<bool>) {
    && h.nextId == g.nextId && h.drawn == g.drawn && h.clients.Keys == g.clients.Keys
    && (forall b :: b in g.clients ==>
          h.clients[b].ready == if b == c then said.GetOr(g.clients[b].ready) else g.clients[b].ready)
  }

  lemma TouchFlags(h: Hub.State, c: ClientId)
    ensures FlagIs(h, Hub.Touch(h, c), c, None)
    ensures Hub.Enabled(h, Hub.DoTouch(c)) && Hub.Step(h, Hub.DoTouch(c)) == Hub.Touch(h, c)
  {
  }

  lemma ReadOneFlags(h: Hub.State, c: ClientId, frame: Json)
    ensures match Server.TextInput(c, frame)
            case Some(i) => Hub.Enabled(h, i) && FlagIs(h, Hub.Step(h, i), c, Claims(frame))
            case None => Claims(frame) == None
  {
    hide Claims, Server.TextInput, Print;
    TextFlag(c, frame);
    match Server.TextInput(c, frame)
    case None =>
    case Some(DoTake(ack)) =>
    case Some(DoHello(k, hello)) =>
    case Some(DoReady(k, ready)) =>
    case Some(DoSendTo(k, msg)) =>
  }

  lemma HostReadAgreed(s: State, c: ClientId)
    requires Agreed(s) && c in s.conns && UpOf(s, s.conns[c].link) != []
    ensures Agreed(HostRead(s, c))
  {
    hide HostRead, RelaysAlive, LinkAgreed, Claims;
    ReadFlags(s, c);
    var t, mine := HostRead(s, c), s.conns[c].link;
    SameRelaysAlive(s, t);
    assert ConnAgreed(s, c);
    assert LinksOk(t);
    forall b | b in t.conns ensures ConnAgreed(t, b) {
      assert ConnAgreed(s, b);
      if b == c {
        LinkRead(RelayOf(s, mine), mine.socket, UpOf(s, mine), Flag(s.host.hub, c), c in s.host.hub.clients);
      } else {
        assert UpOf(t, s.conns[b].link) == UpOf(s, s.conns[b].link);
      }
    }
    forall l | Unclaimed(t, l) ensures WaitsAgreed(t, l) {
      assert Unclaimed(s, l) && WaitsAgreed(s, l);
    }
  }

  lemma SameRelaysAlive(s: State, t: State)
    requires RelaysAlive(s) && t.relays == s.relays && t.buses.Keys == s.buses.Keys
    ensures RelaysAlive(t)
  {
    hide RI.Consistent, RI.NeverStranded;
  }

  lemma SameRelays(s: State, t: State)
    requires RelaysAlive(s) && LinksOk(s) && t.relays == s.relays && t.buses.Keys == s.buses.Keys
    requires t.ups == s.ups && t.conns.Keys == s.conns.Keys
    requires forall c :: c in s.conns ==> t.conns[c].link == s.conns[c].link
    ensures RelaysAlive(t) && LinksOk(t)
  {
    SameRelaysAlive(s, t);
    hide RelaysAlive;
    assert forall c :: c in t.conns ==> c in s.conns.Keys;
  }

  // ---- Whole steps ----

  lemma DrawnIsNew(s: State, c: ClientId)
    requires Agreed(s) && c in s.host.hub.drawn
    ensures c !in s.conns && c < s.host.hub.nextId
  {
    hide LinkAgreed, RelaysAlive, LinksOk;
    assert c in s.conns ==> ConnAgreed(s, c);
  }

  lemma AcceptAgreed(s: State, c: ClientId, l: Link)
    requires Agreed(s) && c in s.host.hub.drawn && Unclaimed(s, l)
    ensures Agreed(HostStep(s, Hub.DoInsert(c)).(conns := s.conns[c := Conn(l, true)]))
  {
    DrawnIsNew(s, c);
    hide Agreed, HI.Advance;
    InsertEffect(s.host, c);
    InsertReads(s, c);
    var s1 := HostStep(s, Hub.DoInsert(c));
    HostStepAgreed(s, Hub.DoInsert(c));
    NewConn(s1, c, l);
  }

  lemma InsertReads(s: State, c: ClientId)
    requires c in s.host.hub.drawn
    ensures var t := HostStep(s, Hub.DoInsert(c));
            t.relays == s.relays && t.buses == s.buses && t.ups == s.ups && t.conns == s.conns && Hub.Enabled(s.host.hub, Hub.DoInsert(c))
  {
    hide HI.Advance;
  }

  lemma NewConn(s: State, c: ClientId, l: Link)
    requires Agreed(s) && Unclaimed(s, l) && c !in s.conns
    requires c in s.host.hub.clients && !s.host.hub.clients[c].ready && Hub.Used(s.host.hub, c)
    ensures Agreed(s.(conns := s.conns[c := Conn(l, true)]))
  {
    hide RelaysAlive, LinkAgreed, Claims;
    var t := s.(conns := s.conns[c := Conn(l, true)]);
    SameRelaysAlive(s, t);
    assert WaitsAgreed(s, l);
    forall b | b in t.conns ensures ConnAgreed(t, b) {
      if b != c { assert ConnAgreed(s, b); }
    }
    SameWaiting(s, t);
  }

  lemma InsertEffect(g: HI.History, c: ClientId)
    requires c in g.hub.drawn
    ensures var h := HI.Advance(g, Hub.DoInsert(c)).hub;
            c in h.clients && !h.clients[c].ready && (c < g.hub.nextId ==> Hub.Used(h, c))
  {
  }

  lemma ReplyClaims(q: string, answer: W.Answer)
    ensures Claims(W.Response(q, answer)) == None
  {
    hide W.Response;
    W.ResponseFields(q, answer);
  }

  lemma EmitClaims(e: EventPayload)
    requires e.name != READY_EVENT
    ensures Claims(Print(Event(e))) == None
  {
    hide Parse, Print;
    EventRoundTrip(e);
  }

  lemma BusAgreed(s: State, t: State, msg: Json)
    requires Agreed(s) && Claims(msg) == None && t.buses.Keys == s.buses.Keys
    requires t.host == s.host && t.relays == s.relays && t.ups == s.ups && t.conns == s.conns
    requires forall r :: r in t.buses ==> t.buses[r].fromWasm <= s.buses[r].fromWasm + {msg}
    ensures Agreed(t)
  {
    hide RelaysAlive, LinkAgreed, Claims, LinksOk;
    SameRelays(s, t);
    forall c | c in t.conns ensures ConnAgreed(t, c) { assert ConnAgreed(s, c); }
    SameWaiting(s, t);
  }

  lemma WasmGetAgreed(s: State, r: RelayId, env: Json, answer: W.Answer)
    requires Agreed(s) && Enabled(s, WasmGets(r, env, answer)) && s.relays.Keys == s.buses.Keys
    ensures Agreed(Step(s, WasmGets(r, env, answer)))
  {
    hide Agreed, W.Response, W.Unwrap, Claims;
    match W.Unwrap(env)
    case Some(Request(q, Command(name, payload))) =>
      ReplyClaims(q, answer);
      BusAgreed(s, WasmGet(s, r, env, answer), W.Response(q, answer));
    case _ =>
  }

  lemma LeaveAgreed(s: State, c: ClientId)
    requires Agreed(s) && c in s.conns
    ensures Agreed(s.(conns := s.conns[c := s.conns[c].(reading := false)]))
  {
    hide RelaysAlive, LinkAgreed, Claims, LinksOk;
    var t := s.(conns := s.conns[c := s.conns[c].(reading := false)]);
    SameRelays(s, t);
    forall b | b in t.conns ensures ConnAgreed(t, b) { assert ConnAgreed(s, b); }
    SameWaiting(s, t);
  }

  lemma ArriveAgreed(s: State, c: ClientId, clock: int, onThrows: bool)
    requires Agreed(s) && Enabled(s, Arrives(c, clock, onThrows)) && s.relays.Keys == s.buses.Keys
    ensures Agreed(Step(s, Arrives(c, clock, onThrows)))
  {
    hide Agreed, HostStep, RelayStep, Reach, R.Enabled;
    var i := RelayInput(s, Arrives(c, clock, onThrows));
    var r := s.conns[c].link.relay;
    var s1 := HostStep(s, Hub.WriterSends(c));
    HostStepAgreed(s, Hub.WriterSends(c));
    HostOnly(s, Hub.WriterSends(c));
    var s2 := Reach(s1, r, i.msg);
    ReachRecords(s1, r, i.msg);
    HandledAside(s1, s2);
    RelayStepAgreed(s2, r, i);
  }

  lemma HandledAside(s: State, t: State)
    requires Agreed(s) && t.host == s.host && t.relays == s.relays && t.buses == s.buses && t.ups == s.ups && t.conns == s.conns
    ensures Agreed(t)
  {
    hide RelaysAlive, LinkAgreed, Claims, LinksOk;
    SameRelays(s, t);
    forall c | c in t.conns ensures ConnAgreed(t, c) { assert ConnAgreed(s, c); }
    SameWaiting(s, t);
  }

  lemma FromHostNotReady(i: Hub.Input)
    requires FromHost(i)
    ensures !i.DoReady?
  {
  }

  lemma WasmSaysNothing(s: State, r: RelayId, msg: Json)
    requires Agreed(s) && r in s.buses && msg in s.buses[r].fromWasm
    ensures Claims(msg) == None
  {
    hide RelaysAlive, ConnAgreed, Claims;
  }

  lemma HostSideAgreed(s: State, i: Input)
    requires Agreed(s) && Enabled(s, i) && s.relays.Keys == s.buses.Keys && OfHost(i)
    ensures Agreed(Step(s, i))
  {
    hide Agreed, HostStep, HostRead, Hub.Enabled, FromHost;
    match i
    case HostDoes(j) => FromHostNotReady(j); HostStepAgreed(s, j);
    case Pings(c, ts) => SendEnabled(s.host.hub, c, Print(Ping(ts))); HostStepAgreed(s, Hub.DoSendTo(c, Print(Ping(ts))));
    case Accepts(c, l) => AcceptAgreed(s, c, l);
    case HostReads(c) => HostReadAgreed(s, c);
    case HostLeaves(c) => LeaveAgreed(s, c);
    case HostUnregisters(c) => UnregisterEnabled(s.host.hub, c); HostStepAgreed(s, Hub.DoUnregister(c));
  }

  lemma SimSideAgreed(s: State, i: Input)
    requires Agreed(s) && Enabled(s, i) && s.relays.Keys == s.buses.Keys && !OfHost(i)
    ensures Agreed(Step(s, i))
  {
    hide Agreed, RelayStep, Arrive, WasmGet, R.Enabled, FromRelay, Claims, Print;
    match i
    case RelayDoes(r, j) => FromRelayQuiet(j); RelayStepAgreed(s, r, j);
    case Arrives(c, clock, onThrows) => ArriveAgreed(s, c, clock, onThrows);
    case WasmGets(r, env, answer) => WasmGetAgreed(s, r, env, answer);
    case WasmEmits(r, e) => EmitClaims(e); BusAgreed(s, Step(s, i), Print(Event(e)));
    case WasmReaches(r, msg) => WasmSaysNothing(s, r, msg); RelayStepAgreed(s, r, R.WasmSends(msg));
  }

  lemma InitialAgreed(s: State)
    requires Initial(s)
    ensures Agreed(s) && forall r :: r in s.relays ==> s.relays[r].relay.commBus
  {
    hide RH.Initial, RI.Consistent, RH.Conserved, RI.Issued, LinkAgreed;
    forall r | r in s.relays
      ensures RI.Consistent(s.relays[r].relay) && RI.NeverStranded(s.relays[r].relay)
    {
      var cfg, capacity :| RH.Initial(s.relays[r], cfg, capacity);
      RH.InitialSettling(s.relays[r], cfg, capacity);
    }
    hide RI.NeverStranded;
    forall l | Unclaimed(s, l) ensures WaitsAgreed(s, l) {
      var cfg, capacity :| RH.Initial(s.relays[l.relay], cfg, capacity);
      InitialConnecting(s.relays[l.relay], cfg, capacity, l.socket);
      QuietLink(RelayOf(s, l), l.socket);
    }
  }

  lemma InitialConnecting(h: RH.History, cfg: R.Config, capacity: nat, k: R.SocketId)
    requires RH.Initial(h, cfg, capacity) && k < |h.relay.sockets|
    ensures IsConnecting(h.relay, k)
  {
  }

  lemma QuietLink(t: R.State, k: R.SocketId)
    requires IsConnecting(t, k)
    ensures LinkAgreed(t, k, [], false, true)
  {
  }

  lemma {:induction false} RunAgreed(run: seq<State>, inputs: seq<Input>, k: nat)
    requires IsRun(run, inputs) && k < |run|
    ensures Agreed(run[k])
  {
    if k == 0 {
      InitialAgreed(run[0]);
    } else {
      RunAgreed(run, inputs, k - 1);
      hide Agreed, Enabled, Step, Initial;
      if OfHost(inputs[k - 1]) { HostSideAgreed(run[k - 1], inputs[k - 1]); } else { SimSideAgreed(run[k - 1], inputs[k - 1]); }
    }
  }

  predicate Destroys(i: Input, r: RelayId) {
    i.RelayDoes? && i.relay == r && i.input.Destroyed?
  }

  lemma BusStays(t: R.State, i: R.Input)
    requires R.Enabled(t, i) && !i.Destroyed?
    ensures R.Step(t, i).commBus == t.commBus
  {
    hide R.OnHostCommand, RequestIds.RequestId, R.Envelope, Print, R.HelloFrame;
    if i.HostSends? && i.msg.Tag() == Some("cmd") { CommandKeepsBus(t.(out := []), i.msg, i.clock, i.onThrows); }
  }

  lemma StepBus(s: State, i: Input, r: RelayId)
    requires s.relays.Keys == s.buses.Keys && Enabled(s, i) && r in s.relays && !Destroys(i, r)
    ensures r in Step(s, i).relays && Step(s, i).relays[r].relay.commBus == s.relays[r].relay.commBus
  {
    hide R.Enabled, R.Step, Hub.Enabled, HI.Advance, RelayStep, Server.TextInput, W.Unwrap, W.Response, Print, Reach;
    match i
    case RelayDoes(r0, j) => RelayStepBus(s, r0, j, r);
    case WasmReaches(r0, msg) => RelayStepBus(s, r0, R.WasmSends(msg), r);
    case Arrives(c, clock, onThrows) =>
      var j := RelayInput(s, i);
      var s1 := HostStep(s, Hub.WriterSends(c));
      ReachRecords(s1, s.conns[c].link.relay, j.msg);
      RelayStepBus(Reach(s1, s.conns[c].link.relay, j.msg), s.conns[c].link.relay, j, r);
    case _ =>
  }

  lemma RelayStepBus(s: State, r0: RelayId, i: R.Input, r: RelayId)
    requires s.relays.Keys == s.buses.Keys && r0 in s.relays && R.Enabled(s.relays[r0].relay, i) && r in s.relays
    requires r == r0 ==> !i.Destroyed?
    ensures r in RelayStep(s, r0, i).relays
    ensures RelayStep(s, r0, i).relays[r].relay.commBus == s.relays[r].relay.commBus
  {
    hide R.Enabled, R.Step, RelayStep, RH.Advance, RH.AcceptedBy, CallsIn, Carry;
    RelayStepFields(s, r0, i);
    if r == r0 { BusStays(s.relays[r].relay, i); }
  }

  lemma {:induction false} RunBus(run: seq<State>, inputs: seq<Input>, k: nat, r: RelayId)
    requires IsRun(run, inputs) && k < |run| && r in run[0].relays
    requires forall j :: 0 <= j < k ==> !Destroys(inputs[j], r)
    ensures r in run[k].relays && run[k].relays[r].relay.commBus
  {
    hide Enabled, Step, Destroys, Agreed;
    if k == 0 {
      InitialAgreed(run[0]);
    } else {
      RunBus(run, inputs, k - 1, r);
      hide Initial;
      StepBus(run[k - 1], inputs[k - 1], r);
    }
  }

  lemma {:induction false} RunKeys(run: seq<State>, inputs: seq<Input>, k: nat)
    requires IsRun(run, inputs) && k < |run|
    ensures run[k].relays.Keys == run[0].relays.Keys
  {
    if k > 0 {
      RunKeys(run, inputs, k - 1);
      hide Enabled, Step, Initial;
      StepKeepsRelays(run[k - 1], inputs[k - 1]);
    }
  }

  /**
   * Until a relay is destroyed, in every run: a client the host holds ready has its relay bound;
   * and for the relay's current open socket, the host's flag, brought up to date by the frames it
   * has yet to read, is exactly the relay's bind state.
   */
  lemma ReadinessAgreement(run: seq<State>, inputs: seq<Input>, k: nat, c: ClientId)
    requires IsRun(run, inputs) && k < |run| && c in run[k].conns && c in run[k].host.hub.clients
    requires forall j :: 0 <= j < k ==> !Destroys(inputs[j], run[k].conns[c].link.relay)
    ensures run[k].conns[c].link.relay in run[k].relays
    ensures var s, l := run[k], run[k].conns[c].link;
            var relay, ready := s.relays[l.relay].relay, s.host.hub.clients[c].ready;
            && (ready ==> relay.commBusBound)
            && (relay.ws == Some(l.socket) && R.IsOpen(relay, l.socket) ==> Told(ready, UpOf(s, l)) == relay.commBusBound)
  {
    hide IsRun, Told, Claims, RelaysAlive, Destroys, UpOf;
    RunAgreed(run, inputs, k);
    RunKeys(run, inputs, k);
    RunBus(run, inputs, k, run[k].conns[c].link.relay);
    assert ConnAgreed(run[k], c);
  }

  /**
   * The same before the host has registered a client for the relay's current open socket: the frames
   * that wait there bring a client that starts out not ready to exactly the relay's bind state. No
   * open and no bind is missed, however late the registration.
   */
  lemma LateRegistration(run: seq<State>, inputs: seq<Input>, k: nat, l: Link)
    requires IsRun(run, inputs) && k < |run| && Unclaimed(run[k], l)
    requires forall j :: 0 <= j < k ==> !Destroys(inputs[j], l.relay)
    ensures var relay := run[k].relays[l.relay].relay;
            relay.ws == Some(l.socket) && R.IsOpen(relay, l.socket) ==> Told(false, UpOf(run[k], l)) == relay.commBusBound
  {
    hide IsRun, Told, Claims, RelaysAlive, Destroys, UpOf;
    RunAgreed(run, inputs, k);
    RunKeys(run, inputs, k);
    RunBus(run, inputs, k, l.relay);
    assert WaitsAgreed(run[k], l);
  }
}
