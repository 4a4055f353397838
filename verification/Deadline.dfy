/**
 * Timeout ordering: a host that waits longer than the delivery delays and the relay's own request
 * timeout together always hears the relay's verdict, whatever that is, before giving up.
 */
module Deadline {
  import opened Base
  import opened Json
  import opened Wire
  import opened RequestIds
  import opened System
  import Hub
  import HI = HubInvariants
  import R = Relay
  import RI = RelayInvariants
  import D = Dedup

  /** A frame in flight and when it was sent. */
  datatype Timed = Timed(frame: Json, at: nat)

  /** One target relay whose socket stays open, the two directions of that socket, and the hub. */
  datatype State = State(
    host: HI.History,
    relay: R.State,
    socket: R.SocketId,
    down: seq<Timed>,
    up: seq<Timed>,
    d1: nat,   // longest delivery to the relay
    d2: nat)   // longest delivery back to the hub

  datatype Input =
    | HubDoes(hub: Hub.Input)     // other calls, other clients, acks of other relays
    | RelayDoes(relay: R.Input)
    | Delivers(clock: int, onThrows: bool)
    | Reads
    | TimePasses(ms: nat)

  /**
   * The relay goes on sending over this socket. An error or close of any of its sockets ends that,
   * even of one it gave up long ago: the handler forgets whatever socket is current.
   */
  predicate KeepsSocket(i: R.Input, k: R.SocketId) {
    match i
    case SocketErrors(_) => false
    case SocketCloses(_) => false
    case SocketChanges(j, _) => j != k
    case Destroyed(_) => false
    case _ => true
  }

  function Delivery(s: State, i: Input): R.Input
    requires i.Delivers? && s.down != []
  {
    R.HostSends(s.socket, s.down[0].frame, i.clock, i.onThrows)
  }

  ghost predicate Possible(s: State, i: Input) {
    match i
    case HubDoes(j) => !j.TimePasses? && Hub.Enabled(s.host.hub, j)
    case RelayDoes(j) => !j.TimePasses? && R.Enabled(s.relay, j)
    case Delivers(_, _) => s.down != [] && R.Enabled(s.relay, Delivery(s, i))
    case Reads => s.up != []
    case TimePasses(ms) =>
      && (forall j :: 0 <= j < |s.down| ==> s.relay.now + ms <= s.down[j].at + s.d1)
      && (forall j :: 0 <= j < |s.up| ==> s.relay.now + ms <= s.up[j].at + s.d2)
      && (forall t :: t in s.relay.timers ==> s.relay.now + ms <= s.relay.timers[t].due)
      && (s.host.hub.inHand != map[] ==> ms == 0)
  }

  ghost predicate Enabled(s: State, i: Input) {
    Possible(s, i) && (i.RelayDoes? ==> KeepsSocket(i.relay, s.socket))
  }

  function Stamp(frames: seq<Json>, at: nat): seq<Timed> {
    seq(|frames|, j requires 0 <= j < |frames| => Timed(frames[j], at))
  }

  function RelayStep(s: State, i: R.Input): State
    requires R.Enabled(s.relay, i)
  {
    var relay := R.Step(s.relay, i);
    s.(relay := relay, up := s.up + Stamp(FramesVia(relay.out, s.socket), relay.now))
  }

  /** The hub only acts on acks here; what other frames do is covered by its own steps. */
  function Read(s: State): State
    requires s.up != []
  {
    var s1 := s.(up := s.up[1..]);
    match Parse(s.up[0].frame)
    case Some(Ack(ack)) => s1.(host := HI.Advance(s.host, Hub.DoTake(ack)))
    case _ => s1
  }

  function Step(s: State, i: Input): State
    requires Possible(s, i)
  {
    match i
    case HubDoes(j) => s.(host := HI.Advance(s.host, j))
    case RelayDoes(j) => RelayStep(s, j)
    case Delivers(_, _) => RelayStep(s.(down := s.down[1..]), Delivery(s, i))
    case Reads => Read(s)
    case TimePasses(ms) =>
      s.(host := HI.Advance(s.host, Hub.TimePasses(ms)), relay := s.relay.(now := s.relay.now + ms))
  }

  /** The n-th call has just been put on the way to the relay and waits longer than d1 + d2 + timeout. */
  ghost predicate Sent(s: State, n: Hub.CallId) {
    && Steady(s)
    && n < |s.host.hub.calls|
    && var c := s.host.hub.calls[n];
    && c.phase.Waiting? && c.deadline == s.host.hub.now + c.timeout
    && s.d1 + s.relay.cfg.requestTimeoutMs + s.d2 < c.timeout
    && s.down != [] && s.down[|s.down| - 1] == Timed(Hub.CmdFrame(c), s.relay.now)
  }

  ghost predicate IsRun(run: seq<State>, inputs: seq<Input>, n: Hub.CallId) {
    && |run| == |inputs| + 1
    && Sent(run[0], n)
    && forall k :: 0 <= k < |inputs| ==> Enabled(run[k], inputs[k]) && run[k + 1] == Step(run[k], inputs[k])
  }

  // ---- Where the call is ----

  predicate Acks(frame: Json, id: string) {
    match Parse(frame)
    case Some(Ack(a)) => a.id == id
    case _ => false
  }

  predicate IsCommandFor(frame: Json, id: string) {
    frame.Tag() == Some("cmd") && frame.Get("id") == Some(Str(id))
  }

  /** The command is still on its way down. */
  ghost predicate OnTheWay(s: State, id: string, t0: nat) {
    s.relay.now <= t0 + s.d1 && exists j: nat :: j < |s.down| && s.down[j].at <= t0 && IsCommandFor(s.down[j].frame, id)
  }

  /** The request is pending, with a live timer that is due in time. */
  ghost predicate AtRelay(t: R.State, q: string, id: string, due: nat) {
    && q in t.pending && t.pending[q].cmdId == id
    && t.pending[q].timerId in t.timers && t.timers[t.pending[q].timerId].due <= due
  }

  ghost predicate Pending(t: R.State, id: string, due: nat) {
    t.now <= due && exists q :: AtRelay(t, q, id, due)
  }

  ghost predicate OnTheWayBack(s: State, id: string, t1: nat) {
    s.relay.now <= t1 + s.d2 && exists j: nat :: j < |s.up| && s.up[j].at <= t1 && Acks(s.up[j].frame, id)
  }

  /** When the relay has answered at the latest, and when the host has the answer at the latest. */
  function Settled(s: State, t0: nat): nat {
    t0 + s.d1 + s.relay.cfg.requestTimeoutMs
  }

  function Limit(s: State, t0: nat): nat {
    Settled(s, t0) + s.d2
  }

  ghost predicate Tracked(s: State, id: string, t0: nat) {
    OnTheWay(s, id, t0) || Pending(s.relay, id, Settled(s, t0)) || OnTheWayBack(s, id, Settled(s, t0))
  }

  /** The relay keeps this open socket as its own. */
  ghost predicate Holds(t: R.State, k: R.SocketId) {
    t.ws == Some(k) && R.IsOpen(t, k)
  }

  predicate Waits(c: Hub.Call) {
    c.phase.Waiting? && c.slot.Empty?
  }

  predicate Timely(h: Hub.State, n: Hub.CallId, limit: nat) {
    && n < |h.calls|
    && var c := h.calls[n];
    && !c.phase.Inserted?
    && (c.phase.Resolved? || c.phase.Finished? ==> c.phase.outcome != Hub.TIMED_OUT)
    && limit < c.deadline
    && (Waits(c) ==> h.now <= limit)
  }

  ghost predicate Steady(s: State) {
    && HI.WaitersExact(s.host) && RI.Consistent(s.relay) && RI.NeverStranded(s.relay)
    && s.relay.now == s.host.hub.now
    && Holds(s.relay, s.socket)
  }

  /** Everything about the tracked call at any later time; t0 is when it was sent. */
  ghost predicate InTime(s: State, n: Hub.CallId, t0: nat) {
    && Steady(s)
    && Timely(s.host.hub, n, Limit(s, t0))
    && (Waits(s.host.hub.calls[n]) && n !in s.host.hub.inHand ==> Tracked(s, s.host.hub.calls[n].id, t0))
    && Answering(s.host, n)
  }

  /** It has not ended, or ended with its first ack or at its deadline. */
  ghost predicate Answering(g: HI.History, n: Hub.CallId) {
    n < |g.hub.calls| == |g.seen| && HI.AckOrDeadline(g.hub, n, g.seen[n])
  }

  lemma AckFrames(id: string, response: Option<Json>, error: string)
    ensures Acks(R.AckOk(id, response), id) && Acks(R.AckErr(id, error), id) && Acks(R.AckDuplicate(id), id)
  {
    hide Print, Parse;
    AckRoundTrip(AckPayload(id, true, None, response, None));
    AckRoundTrip(AckPayload(id, false, Some(error), None, None));
    AckRoundTrip(AckPayload(id, true, None, Some(Null), Some(true)));
  }

  // ---- Steps of the relay ----

  /** An ack for this id is among the frames sent over the socket. */
  ghost predicate SaysAck(t: R.State, k: R.SocketId, id: string) {
    exists j: nat :: j < |FramesVia(t.out, k)| && Acks(FramesVia(t.out, k)[j], id)
  }

  lemma SentOver(t: R.State, k: R.SocketId, frame: Json, cause: R.Cause, id: string)
    requires Holds(t, k) && Acks(frame, id)
    ensures SaysAck(R.WsSend(t, frame, cause), k, id)
  {
    hide Acks;
    var t' := R.WsSend(t, frame, cause);
    assert t'.out[..|t'.out| - 1] == t.out;
    assert FramesVia(t'.out, k) == FramesVia(t.out, k) + [frame];
    assert FramesVia(t'.out, k)[|FramesVia(t.out, k)|] == frame;
  }

  lemma SettleSays(t: R.State, k: R.SocketId, q: string, frame: Json, id: string)
    requires Holds(t, k) && q in t.pending && Acks(frame, id)
    ensures SaysAck(R.Settle(t, q, frame), k, id)
  {
    hide Acks, SaysAck;
    SentOver(R.ClearTimeout(t.(pending := t.pending - {q}), t.pending[q].timerId), k, frame, R.Settles(q), id);
  }

  /** A pending request and its timer survive a handler, or the handler answers it. */
  ghost predicate KeptOrSaid(t: R.State, k: R.SocketId, q: string, id: string, due: nat) {
    AtRelay(t, q, id, due) || SaysAck(t, k, id)
  }

  lemma OwnTimer(t: R.State, q: string, x: R.TimerId)
    requires RI.Consistent(t) && q in t.pending && x in t.timers
    requires !t.timers[x].kind.RequestTimeout? || t.timers[x].kind.requestId != q
    ensures t.pending[q].timerId != x && forall y :: y in t.timers ==> y < t.nextTimer
  {
    assert RI.HasTimer(t, q);
  }

  lemma ExpiryKeeps(t: R.State, x: R.TimerId, k: R.SocketId, q: string, id: string, due: nat)
    requires RI.Consistent(t) && Holds(t, k) && AtRelay(t, q, id, due)
    requires x in t.timers && t.timers[x].kind.RequestTimeout?
    ensures var kind := t.timers[x].kind;
            KeptOrSaid(R.RequestTimerFires(R.ClearTimeout(t, x), kind.requestId, kind.cmdId), k, q, id, due)
  {
    hide SaysAck, Acks, Print;
    var kind := t.timers[x].kind;
    if kind.requestId == q {
      var error := if t.commBusBound then R.TIMED_OUT else R.NOT_BOUND;
      assert RI.HasRequest(t, x);
      AckFrames(id, None, error);
      SentOver(R.ClearTimeout(t, x).(pending := t.pending - {q}), k, R.AckErr(id, error), R.Settles(q), id);
    } else {
      OwnTimer(t, q, x);
      hide R.AckErr;
    }
  }

  lemma TimerKeeps(t: R.State, i: R.Input, k: R.SocketId, q: string, id: string, due: nat)
    requires RI.Consistent(t) && Holds(t, k) && AtRelay(t, q, id, due) && i.TimerFires? && R.Enabled(t, i)
    ensures KeptOrSaid(R.Handle(t, i), k, q, id, due)
  {
    hide SaysAck, R.RequestTimerFires, R.BindRetryFires, R.ConnectWs, RI.Consistent;
    if t.timers[i.timer].kind.RequestTimeout? {
      ExpiryKeeps(t, i.timer, k, q, id, due);
    } else {
      OwnTimer(t, q, i.timer);
      RetryKeeps(t, i, q, id, due);
    }
  }

  lemma RetryKeeps(t: R.State, i: R.Input, q: string, id: string, due: nat)
    requires AtRelay(t, q, id, due) && i.TimerFires? && R.Enabled(t, i) && t.pending[q].timerId != i.timer
    requires t.timers[i.timer].kind.BindRetry? || t.timers[i.timer].kind.Reconnect?
    requires forall x :: x in t.timers ==> x < t.nextTimer
    ensures AtRelay(R.Handle(t, i), q, id, due)
  {
    hide Print;
  }

  lemma OtherSettled(t: R.State, q1: string, frame: Json, q: string, id: string, due: nat)
    requires RI.Consistent(t) && AtRelay(t, q, id, due) && q1 in t.pending && q1 != q
    ensures AtRelay(R.Settle(t, q1, frame), q, id, due)
  {
    assert RI.HasTimer(t, q) && RI.HasTimer(t, q1);
    assert t.pending[q].timerId != t.pending[q1].timerId;
  }

  lemma AnswerKeeps(t: R.State, msg: Json, q1: string, k: R.SocketId, q: string, id: string, due: nat)
    requires RI.Consistent(t) && Holds(t, k) && AtRelay(t, q, id, due)
    requires q1 in t.pending && msg.Get("requestId") == Some(Str(q1))
    ensures KeptOrSaid(R.OnWasmMessage(t, msg), k, q, id, due)
  {
    hide SaysAck, Acks, R.Settle, R.AckOk, R.AckErr, R.ErrorText, RI.Consistent, AtRelay;
    var refusal, result := R.AckErr(t.pending[q1].cmdId, R.ErrorText(msg)), R.AckOk(t.pending[q1].cmdId, msg.Get("response"));
    if q1 == q {
      assert t.pending[q].cmdId == id by { AtRelayId(t, q, id, due); }
      AckFrames(id, msg.Get("response"), R.ErrorText(msg));
      SettleSays(t, k, q, refusal, id);
      SettleSays(t, k, q, result, id);
    } else {
      OtherSettled(t, q1, refusal, q, id, due);
      OtherSettled(t, q1, result, q, id, due);
    }
  }

  lemma AtRelayId(t: R.State, q: string, id: string, due: nat)
    requires AtRelay(t, q, id, due)
    ensures q in t.pending && t.pending[q].cmdId == id
  {
  }

  lemma WasmKeeps(t: R.State, msg: Json, k: R.SocketId, q: string, id: string, due: nat)
    requires RI.Consistent(t) && Holds(t, k) && AtRelay(t, q, id, due)
    ensures KeptOrSaid(R.OnWasmMessage(t, msg), k, q, id, due)
  {
    match msg.Get("requestId")
    case Some(Str(q1)) =>
      hide SaysAck, R.Settle, R.AckOk, R.AckErr, R.ErrorText, RI.Consistent, AtRelay;
      if q1 in t.pending { AnswerKeeps(t, msg, q1, k, q, id, due); }
    case _ => hide SaysAck;
  }

  lemma RejectKeeps(t: R.State, q1: string, reason: string, k: R.SocketId, q: string, id: string, due: nat)
    requires RI.Consistent(t) && Holds(t, k) && AtRelay(t, q, id, due)
    ensures KeptOrSaid(R.CallRejected(t, q1, reason), k, q, id, due)
  {
    hide SaysAck, Acks, R.Settle, R.AckErr, RI.Consistent;
    if q1 in t.pending {
      var frame := R.AckErr(t.pending[q1].cmdId, reason);
      if q1 == q {
        AckFrames(id, None, reason);
        SettleSays(t, k, q, frame, id);
      } else {
        OtherSettled(t, q1, frame, q, id, due);
      }
    }
  }

  lemma AcceptKeeps(t: R.State, cmdId: string, clock: int, q: string, id: string, due: nat)
    requires RI.Consistent(t) && AtRelay(t, q, id, due)
    ensures AtRelay(R.Accept(t, cmdId, RequestId(clock, t.requestSeq + 1)), q, id, due)
  {
    RI.NextIdIsFresh(q, t.requestSeq, clock);
    hide RequestId, D.Mark;
    assert RI.HasTimer(t, q);
  }

  lemma AcceptFields(t: R.State, cmdId: string, q: string)
    ensures var t' := R.Accept(t, cmdId, q);
            && t'.commBus == t.commBus && t'.ws == t.ws && t'.sockets == t.sockets && t'.out == t.out
            && t'.cfg == t.cfg && t'.now == t.now && q in t'.pending
  {
    hide D.Mark;
  }

  lemma HostKeeps(t: R.State, i: R.Input, q: string, id: string, due: nat)
    requires RI.Consistent(t) && t.commBus && AtRelay(t, q, id, due) && i.HostSends?
    ensures AtRelay(R.OnHostMessage(t, i.msg, i.clock, i.onThrows), q, id, due)
  {
    hide RequestId, R.Envelope, R.PongFrame, R.Accept, Print, D.Has;
    if i.msg.Tag() == Some("cmd") && i.msg.Get("id").Some? && i.msg.Get("id").value.Str? {
      AcceptKeeps(t, i.msg.Get("id").value.s, i.clock, q, id, due);
      AcceptFields(t, i.msg.Get("id").value.s, RequestId(i.clock, t.requestSeq + 1));
    }
  }

  lemma HandleKeeps(t: R.State, i: R.Input, k: R.SocketId, q: string, id: string, due: nat)
    requires RI.Consistent(t) && RI.NeverStranded(t) && Holds(t, k) && R.Enabled(t, i) && KeepsSocket(i, k) && !i.TimePasses?
    requires AtRelay(t, q, id, due)
    ensures KeptOrSaid(R.Handle(t, i), k, q, id, due)
  {
    match i
    case Continuation(onThrows) => hide SaysAck;
    case TimerFires(_, _, _) => hide RI.NeverStranded, SaysAck, R.RequestTimerFires; TimerKeeps(t, i, k, q, id, due);
    case SocketOpens(_, _) => hide SaysAck, R.HelloFrame;
    case SocketChanges(_, _) => hide SaysAck;
    case HostSends(_, _, _, _) => hide SaysAck, R.OnHostMessage; HostKeeps(t, i, q, id, due);
    case WasmSends(msg) => hide SaysAck, R.OnWasmMessage; WasmKeeps(t, msg, k, q, id, due);
    case CallRejects(q1, reason) => hide SaysAck, R.CallRejected; RejectKeeps(t, q1, reason, k, q, id, due);
  }

  /** The tracked command is accepted, with a timer from now, or answered on the spot. */
  lemma CommandLands(t: R.State, i: R.Input, k: R.SocketId, id: string)
    requires t.commBus && Holds(t, k) && i.HostSends? && IsCommandFor(i.msg, id)
    ensures KeptOrSaid(R.OnHostMessage(t, i.msg, i.clock, i.onThrows), k,
                       RequestId(i.clock, t.requestSeq + 1), id, t.now + t.cfg.requestTimeoutMs)
  {
    hide RequestId, SaysAck, Acks, R.Envelope, D.Mark, Print;
    AckFrames(id, None, "");
    SentOver(t, k, R.AckDuplicate(id), R.Duplicate, id);
    hide R.AckDuplicate;
  }

  /** Exactly the handlers that keep the socket leave the relay sending over it. */
  lemma SocketKeptExactly(t: R.State, i: R.Input, k: R.SocketId)
    requires RI.NeverStranded(t) && Holds(t, k) && R.Enabled(t, i)
    ensures Holds(R.Handle(t, i), k) <==> KeepsSocket(i, k)
  {
    if i.Destroyed? {
      hide R.RejectAll, RI.NeverStranded;
    } else if KeepsSocket(i, k) && !i.TimePasses? {
      hide R.Handle;
      SocketKept(t, i, k);
    } else {
      hide RI.NeverStranded;
    }
  }

  /** What every such step leaves alone. */
  lemma SocketKept(t: R.State, i: R.Input, k: R.SocketId)
    requires RI.NeverStranded(t) && Holds(t, k) && R.Enabled(t, i) && KeepsSocket(i, k) && !i.TimePasses?
    ensures Holds(R.Handle(t, i), k) && R.Handle(t, i).cfg == t.cfg && R.Handle(t, i).now == t.now
  {
    hide Print, RequestId, R.Envelope, R.AckOk, R.AckErr, R.AckDuplicate, R.HelloFrame, R.PongFrame, R.ErrorText, D.Mark, D.Has;
    if i.TimerFires? {
      assert t.timers[i.timer].kind != R.Reconnect;
    } else if i.HostSends? {
      hide R.OnHostMessage;
      CommandKeepsSocket(t, i, k);
    } else {
      hide R.RequestTimerFires, R.BindRetryFires;
    }
  }

  lemma CommandKeepsSocket(t: R.State, i: R.Input, k: R.SocketId)
    requires Holds(t, k) && i.HostSends?
    ensures var t' := R.OnHostMessage(t, i.msg, i.clock, i.onThrows);
            Holds(t', k) && t'.cfg == t.cfg && t'.now == t.now
  {
    hide Print, RequestId, R.Envelope, R.AckErr, R.AckDuplicate, R.PongFrame, D.Mark, D.Has;
  }

  // ---- Steps of the system ----

  lemma StampedAcks(s: State, t: R.State, id: string, t1: nat)
    requires SaysAck(t, s.socket, id) && t.now <= t1
    ensures OnTheWayBack(s.(relay := t, up := s.up + Stamp(FramesVia(t.out, s.socket), t.now)), id, t1)
  {
    hide Acks, FramesVia;
    var frames := FramesVia(t.out, s.socket);
    var j: nat :| j < |frames| && Acks(frames[j], id);
    var up := s.up + Stamp(frames, t.now);
    assert up[|s.up| + j] == Timed(frames[j], t.now);
  }

  lemma StillBack(s: State, t: State, id: string, t1: nat)
    requires OnTheWayBack(s, id, t1) && t.relay.now == s.relay.now && t.d2 == s.d2 && s.up <= t.up
    ensures OnTheWayBack(t, id, t1)
  {
    hide Acks;
    var j: nat :| j < |s.up| && s.up[j].at <= t1 && Acks(s.up[j].frame, id);
    assert t.up[j] == s.up[j];
  }

  /** A handler leaves a tracked call tracked; the frames towards the relay may lose their first. */
  lemma RelayTracks(s: State, i: R.Input, id: string, t0: nat)
    requires RI.Consistent(s.relay) && RI.NeverStranded(s.relay) && Holds(s.relay, s.socket)
    requires R.Enabled(s.relay, i) && KeepsSocket(i, s.socket) && !i.TimePasses? && Tracked(s, id, t0)
    ensures Tracked(RelayStep(s, i), id, t0)
  {
    hide RI.Consistent, RI.NeverStranded, R.Handle, R.Enabled, SaysAck, FramesVia, Stamp, Acks, IsCommandFor;
    var t, s' := s.relay.(out := []), RelayStep(s, i);
    Cleared(s.relay, i);
    SocketKept(t, i, s.socket);
    if Pending(s.relay, id, Settled(s, t0)) {
      var q :| AtRelay(s.relay, q, id, Settled(s, t0));
      HandleKeeps(t, i, s.socket, q, id, Settled(s, t0));
      if SaysAck(s'.relay, s.socket, id) { StampedAcks(s, s'.relay, id, Settled(s, t0)); }
    } else if OnTheWayBack(s, id, Settled(s, t0)) {
      StillBack(s, s', id, Settled(s, t0));
    }
  }

  lemma Cleared(t: R.State, i: R.Input)
    requires R.Enabled(t, i)
    ensures R.Enabled(t.(out := []), i)
    ensures RI.Consistent(t) ==> RI.Consistent(t.(out := []))
    ensures RI.NeverStranded(t) ==> RI.NeverStranded(t.(out := []))
  {
    if RI.Consistent(t) { RI.ConsistentFrame(t, t.(out := [])); }
    if RI.NeverStranded(t) { RI.ConnectionFrame(t, t.(out := [])); }
  }

  lemma DeliveryTracks(s: State, i: Input, id: string, t0: nat)
    requires RI.Consistent(s.relay) && RI.NeverStranded(s.relay) && Holds(s.relay, s.socket)
    requires i.Delivers? && Enabled(s, i) && Tracked(s, id, t0)
    ensures Tracked(Step(s, i), id, t0)
  {
    hide RI.Consistent, R.Handle, SaysAck, FramesVia, Stamp, Acks, IsCommandFor, Pending, OnTheWayBack;
    var s0, j := s.(down := s.down[1..]), Delivery(s, i);
    if OnTheWay(s, id, t0) {
      var k: nat :| k < |s.down| && s.down[k].at <= t0 && IsCommandFor(s.down[k].frame, id);
      if k == 0 {
        Landing(s0, j, id, t0);
      } else {
        assert s0.down[k - 1] == s.down[k];
        assert OnTheWay(s0, id, t0);
        RelayTracks(s0, j, id, t0);
      }
    } else {
      if OnTheWayBack(s, id, Settled(s, t0)) { StillBack(s, s0, id, Settled(s, t0)); }
      RelayTracks(s0, j, id, t0);
    }
  }

  lemma Landing(s: State, i: R.Input, id: string, t0: nat)
    requires s.relay.now <= t0 + s.d1 && RI.NeverStranded(s.relay) && Holds(s.relay, s.socket)
    requires i.HostSends? && R.Enabled(s.relay, i) && IsCommandFor(i.msg, id)
    ensures Tracked(RelayStep(s, i), id, t0)
  {
    hide RI.NeverStranded, R.OnHostMessage, R.Enabled, SaysAck, FramesVia, Stamp, Acks, IsCommandFor, RequestId;
    var t, s', q := s.relay.(out := []), RelayStep(s, i), RequestId(i.clock, s.relay.requestSeq + 1);
    Cleared(s.relay, i);
    NeverStrandedBus(s.relay);
    SocketKept(t, i, s.socket);
    CommandLands(t, i, s.socket, id);
    if SaysAck(s'.relay, s.socket, id) {
      StampedAcks(s, s'.relay, id, Settled(s, t0));
    } else {
      assert AtRelay(s'.relay, q, id, Settled(s, t0));
    }
  }

  lemma NeverStrandedBus(t: R.State)
    requires RI.NeverStranded(t)
    ensures t.commBus
  {
  }

  lemma RelayInTime(s: State, i: Input, n: Hub.CallId, t0: nat)
    requires InTime(s, n, t0) && (i.RelayDoes? || i.Delivers?) && Enabled(s, i)
    ensures InTime(Step(s, i), n, t0)
  {
    hide HI.WaitersExact, RI.Consistent, RI.NeverStranded, R.Step, R.Enabled, Tracked, FramesVia, Stamp, Answering;
    var j := if i.RelayDoes? then i.relay else Delivery(s, i);
    var s0, id := if i.RelayDoes? then s else s.(down := s.down[1..]), s.host.hub.calls[n].id;
    assert Step(s, i) == RelayStep(s0, j);
    RelaySteady(s.relay, j, s.socket);
    if Tracked(s, id, t0) {
      if i.RelayDoes? { RelayTracks(s, j, id, t0); } else { DeliveryTracks(s, i, id, t0); }
    }
  }

  lemma RelaySteady(t: R.State, i: R.Input, k: R.SocketId)
    requires RI.Consistent(t) && RI.NeverStranded(t) && Holds(t, k) && R.Enabled(t, i) && KeepsSocket(i, k) && !i.TimePasses?
    ensures var t' := R.Step(t, i);
            RI.Consistent(t') && RI.NeverStranded(t') && Holds(t', k) && t'.cfg == t.cfg && t'.now == t.now
  {
    hide RI.Consistent, RI.NeverStranded, R.Handle, R.Enabled;
    RI.StepConsistent(t, i);
    RI.StepNeverStranded(t, i);
    Cleared(t, i);
    SocketKept(t.(out := []), i, k);
  }

  // ---- Steps of the hub ----

  /** Nothing about the n-th call got worse by this step of the hub. */
  predicate KeepsTime(g: Hub.State, h: Hub.State, n: Hub.CallId, limit: nat)
    requires n < |g.calls|
  {
    && Timely(h, n, limit)
    && h.now == g.now && h.calls[n].id == g.calls[n].id
    && (Waits(h.calls[n]) && n !in h.inHand ==> Waits(g.calls[n]) && n !in g.inHand)
  }

  lemma StartTimely(g: HI.History, i: Hub.Input, n: Hub.CallId, limit: nat)
    requires HI.WaitersExact(g) && Hub.Enabled(g.hub, i) && Timely(g.hub, n, limit) && (i.DoBegin? || i.DoOffer?)
    ensures KeepsTime(g.hub, Hub.Step(g.hub, i), n, limit)
  {
    if i.DoOffer? {
      HI.OfferFrame(g.hub, i.call);
      hide Hub.Offer;
    } else {
      hide HI.SenderPlaced, HI.EndedWell;
    }
  }

  lemma EndTimely(h: Hub.State, i: Hub.Input, n: Hub.CallId, limit: nat)
    requires Hub.Enabled(h, i) && Timely(h, n, limit) && (i.DoResolve? || i.DoFinish?)
    ensures KeepsTime(h, Hub.Step(h, i), n, limit)
  {
    if i.DoResolve? && i.call == n && h.calls[n].slot.Filled? {
      assert Hub.OutcomeOf(h.calls[n].slot.ack) != Hub.TIMED_OUT;
    }
  }

  lemma AckTimely(h: Hub.State, i: Hub.Input, n: Hub.CallId, limit: nat)
    requires Hub.Enabled(h, i) && Timely(h, n, limit) && (i.DoTake? || i.DoDeliver?)
    ensures KeepsTime(h, Hub.Step(h, i), n, limit)
  {
  }

  /** No step of the hub but the clock brings a sent call closer to a timeout. */
  lemma HubTimely(g: HI.History, i: Hub.Input, n: Hub.CallId, limit: nat)
    requires HI.WaitersExact(g) && Hub.Enabled(g.hub, i) && !i.TimePasses? && Timely(g.hub, n, limit)
    ensures KeepsTime(g.hub, Hub.Step(g.hub, i), n, limit)
  {
    hide HI.WaitersExact, Hub.Step, Hub.Enabled;
    if HI.Idle(i) {
      HI.IdleFrame(g.hub, i);
      IdleClock(g.hub, i);
    } else if i.DoBegin? || i.DoOffer? {
      StartTimely(g, i, n, limit);
    } else if i.DoResolve? || i.DoFinish? {
      EndTimely(g.hub, i, n, limit);
    } else {
      AckTimely(g.hub, i, n, limit);
    }
  }

  lemma IdleClock(h: Hub.State, i: Hub.Input)
    requires HI.Idle(i) && Hub.Enabled(h, i) && !i.TimePasses?
    ensures Hub.Step(h, i).now == h.now
  {
    hide Print, Hub.Targets;
  }

  lemma HubInTime(s: State, i: Hub.Input, n: Hub.CallId, t0: nat)
    requires InTime(s, n, t0) && !i.TimePasses? && Hub.Enabled(s.host.hub, i)
    ensures InTime(s.(host := HI.Advance(s.host, i)), n, t0)
  {
    hide HI.WaitersExact, RI.Consistent, RI.NeverStranded, Hub.Step, Hub.Enabled, OnTheWay, OnTheWayBack, Pending, Answering;
    HI.StepExact(s.host, i);
    StillAnswering(s.host, i, n);
    HubTimely(s.host, i, n, Limit(s, t0));
    var s' := s.(host := HI.Advance(s.host, i));
    if Tracked(s, s.host.hub.calls[n].id, t0) { SameFlight(s, s', s.host.hub.calls[n].id, t0); }
  }

  lemma StillAnswering(g: HI.History, i: Hub.Input, n: Hub.CallId)
    requires HI.WaitersExact(g) && Hub.Enabled(g.hub, i) && Answering(g, n)
    ensures Answering(HI.Advance(g, i), n)
  {
    hide HI.WaitersExact, Hub.Enabled, HI.Advance, HI.AckOrDeadline;
    HI.StepEnds(g, i, n);
  }

  lemma SameFlight(s: State, t: State, id: string, t0: nat)
    requires Tracked(s, id, t0) && t == s.(host := t.host)
    ensures Tracked(t, id, t0)
  {
    hide Acks, IsCommandFor;
  }

  /** A call still waiting for its first ack has its sender in the table, so that ack reaches it. */
  lemma AckIsTaken(g: HI.History, ack: AckPayload, n: Hub.CallId)
    requires HI.WaitersExact(g) && n < |g.hub.calls| && Waits(g.hub.calls[n]) && g.hub.calls[n].id == ack.id
    ensures n in Hub.Take(g.hub, ack).inHand
  {
    assert HI.SenderPlaced(g.hub, n, g.seen[n]);
  }

  lemma ReadInTime(s: State, n: Hub.CallId, t0: nat)
    requires InTime(s, n, t0) && Enabled(s, Reads)
    ensures InTime(Step(s, Reads), n, t0)
  {
    hide HI.WaitersExact, RI.Consistent, RI.NeverStranded, Hub.Take, Parse, Timely, OnTheWay, Pending, Answering;
    InCalls(s.host.hub, n, Limit(s, t0));
    var s1, c := s.(up := s.up[1..]), s.host.hub.calls[n];
    if Acks(s.up[0].frame, c.id) {
      var ack := Parse(s.up[0].frame).value.ack;
      HI.StepExact(s.host, Hub.DoTake(ack));
      StillAnswering(s.host, Hub.DoTake(ack), n);
      HubTimely(s.host, Hub.DoTake(ack), n, Limit(s, t0));
      if Waits(c) { AckIsTaken(s.host, ack, n); }
    } else {
      if OnTheWayBack(s, c.id, Settled(s, t0)) { NextBack(s, c.id, Settled(s, t0)); }
      assert InTime(s1, n, t0) by { hide Acks, OnTheWayBack; Popped(s, s1, c.id, t0); }
      if Parse(s.up[0].frame).Some? && Parse(s.up[0].frame).value.Ack? {
        HubInTime(s1, Hub.DoTake(Parse(s.up[0].frame).value.ack), n, t0);
      }
    }
  }

  lemma InCalls(h: Hub.State, n: Hub.CallId, limit: nat)
    requires Timely(h, n, limit)
    ensures n < |h.calls|
  {
  }

  lemma NextBack(s: State, id: string, t1: nat)
    requires OnTheWayBack(s, id, t1) && s.up != [] && !Acks(s.up[0].frame, id)
    ensures OnTheWayBack(s.(up := s.up[1..]), id, t1)
  {
    hide Acks;
    var j: nat :| j < |s.up| && s.up[j].at <= t1 && Acks(s.up[j].frame, id);
    assert s.up[1..][j - 1] == s.up[j];
  }

  lemma Popped(s: State, t: State, id: string, t0: nat)
    requires t == s.(up := t.up)
    requires OnTheWayBack(s, id, Settled(s, t0)) ==> OnTheWayBack(t, id, Settled(s, t0))
    ensures Tracked(s, id, t0) ==> Tracked(t, id, t0)
  {
    hide IsCommandFor, OnTheWayBack;
  }

  // ---- Time ----

  /** No delivery is late, timers fire on time, and an ack in hand is passed on at once. */
  lemma TimeInTime(s: State, ms: nat, n: Hub.CallId, t0: nat)
    requires InTime(s, n, t0) && Enabled(s, TimePasses(ms))
    ensures InTime(Step(s, TimePasses(ms)), n, t0)
  {
    hide HI.WaitersExact, RI.Consistent, RI.NeverStranded, Acks, IsCommandFor, Answering;
    var s' := Step(s, TimePasses(ms));
    HI.StepExact(s.host, Hub.TimePasses(ms));
    StillAnswering(s.host, Hub.TimePasses(ms), n);
    ClockOnly(s.relay, ms);
    var c := s.host.hub.calls[n];
    if Waits(c) && n !in s.host.hub.inHand { FlightInTime(s, s', ms, c.id, t0); }
  }

  lemma ClockOnly(t: R.State, ms: nat)
    requires RI.Consistent(t) && RI.NeverStranded(t)
    ensures RI.Consistent(t.(now := t.now + ms)) && RI.NeverStranded(t.(now := t.now + ms))
  {
    RI.ConsistentFrame(t, t.(now := t.now + ms));
    RI.ConnectionFrame(t, t.(now := t.now + ms));
  }

  lemma FlightInTime(s: State, t: State, ms: nat, id: string, t0: nat)
    requires Tracked(s, id, t0) && Enabled(s, TimePasses(ms))
    requires t == s.(host := t.host, relay := s.relay.(now := s.relay.now + ms))
    ensures Tracked(t, id, t0) && t.relay.now <= Limit(s, t0)
  {
    hide Acks, IsCommandFor;
    if OnTheWay(s, id, t0) {
      var j: nat :| j < |s.down| && s.down[j].at <= t0 && IsCommandFor(s.down[j].frame, id);
    } else if Pending(s.relay, id, Settled(s, t0)) {
      var q :| AtRelay(s.relay, q, id, Settled(s, t0));
      assert AtRelay(t.relay, q, id, Settled(s, t0));
    } else {
      var j: nat :| j < |s.up| && s.up[j].at <= Settled(s, t0) && Acks(s.up[j].frame, id);
      StillBackLater(s, t, j, id, Settled(s, t0));
    }
  }

  lemma StillBackLater(s: State, t: State, j: nat, id: string, t1: nat)
    requires t == s.(host := t.host, relay := t.relay) && t.relay.now <= t1 + s.d2
    requires j < |s.up| && s.up[j].at <= t1 && Acks(s.up[j].frame, id)
    ensures OnTheWayBack(t, id, t1)
  {
    hide Acks;
  }

  // ---- Runs ----

  lemma StepInTime(s: State, i: Input, n: Hub.CallId, t0: nat)
    requires InTime(s, n, t0) && Enabled(s, i)
    ensures InTime(Step(s, i), n, t0)
  {
    hide InTime, RelayStep, Read;
    match i
    case HubDoes(j) => HubInTime(s, j, n, t0);
    case RelayDoes(_) => RelayInTime(s, i, n, t0);
    case Delivers(_, _) => RelayInTime(s, i, n, t0);
    case Reads => ReadInTime(s, n, t0);
    case TimePasses(ms) => TimeInTime(s, ms, n, t0);
  }

  lemma CommandFrame(c: Hub.Call)
    ensures IsCommandFor(Hub.CmdFrame(c), c.id)
  {
  }

  lemma SentInTime(s: State, n: Hub.CallId)
    requires Sent(s, n)
    ensures InTime(s, n, s.relay.now)
  {
    HI.WaitsNow(s.host, n);
    hide HI.WaitersExact, RI.Consistent, RI.NeverStranded, IsCommandFor, Hub.CmdFrame;
    CommandFrame(s.host.hub.calls[n]);
    assert OnTheWay(s, s.host.hub.calls[n].id, s.relay.now);
  }

  lemma {:induction false} RunInTime(run: seq<State>, inputs: seq<Input>, n: Hub.CallId, k: nat)
    requires IsRun(run, inputs, n) && k < |run|
    ensures InTime(run[k], n, run[0].relay.now)
  {
    hide Sent, InTime, Enabled, Step;
    if k == 0 {
      SentInTime(run[0], n);
    } else {
      RunInTime(run, inputs, n, k - 1);
      StepInTime(run[k - 1], inputs[k - 1], n, run[0].relay.now);
    }
  }

  /**
   * Once a command is on its way to a relay that goes on sending over its socket, with the delivery
   * delays and the relay's request timeout adding up to less than the host's, its call never ends in
   * a timeout, whatever else happens: it ends with the first ack carrying its id, and it waits no
   * longer than that sum.
   */
  lemma TimeoutOrdering(run: seq<State>, inputs: seq<Input>, n: Hub.CallId, k: nat)
    requires IsRun(run, inputs, n) && k < |run|
    ensures n < |run[k].host.hub.calls| == |run[k].host.seen|
    ensures var h, c, seen := run[k].host.hub, run[k].host.hub.calls[n], run[k].host.seen[n];
            && Hub.Resolution(h, c) != Some(Hub.TIMED_OUT)
            && (c.phase.Resolved? || c.phase.Finished? ==> seen != [] && c.phase.outcome == Hub.OutcomeOf(seen[0]))
            && (Waits(c) ==> h.now <= Limit(run[k], run[0].relay.now) < c.deadline)
  {
    RunInTime(run, inputs, n, k);
    hide IsRun, Tracked, HI.WaitersExact, RI.Consistent, RI.NeverStranded;
    if run[k].host.hub.calls[n].slot.Filled? {
      assert Hub.OutcomeOf(run[k].host.hub.calls[n].slot.ack) != Hub.TIMED_OUT;
    }
  }
}
