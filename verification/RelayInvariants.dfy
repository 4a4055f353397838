/** What every handler of the relay keeps. */
module RelayInvariants {
  import opened Base
  import opened Json
  import opened Wire
  import opened RequestIds
  import opened Relay
  import D = Dedup

  // ---- Pending requests and their timers ----

  ghost predicate Issued(requestId: string, upTo: nat) {
    exists clock: int, n: nat :: n <= upTo && requestId == RequestId(clock, n)
  }

  /** The next request id is new whatever the clock shows. */
  lemma NextIdIsFresh(requestId: string, upTo: nat, clock: int)
    requires Issued(requestId, upTo)
    ensures requestId != RequestId(clock, upTo + 1)
  {
    if requestId == RequestId(clock, upTo + 1) {
      var c: int, n: nat :| n <= upTo && requestId == RequestId(c, n);
      RequestIdInjective(c, n, clock, upTo + 1);
    }
  }

  lemma IssuedLater(requestId: string, upTo: nat, later: nat)
    requires Issued(requestId, upTo) && upTo <= later
    ensures Issued(requestId, later)
  {
    var c: int, n: nat :| n <= upTo && requestId == RequestId(c, n);
    assert n <= later && requestId == RequestId(c, n);
  }

  ghost predicate HasTimer(s: State, q: string) {
    q in s.pending && Live(s, s.pending[q].timerId, RequestTimeout(q, s.pending[q].cmdId))
  }

  ghost predicate HasRequest(s: State, t: TimerId) {
    t in s.timers && (s.timers[t].kind.RequestTimeout? ==>
      s.timers[t].kind.requestId in s.pending && s.pending[s.timers[t].kind.requestId].timerId == t)
  }

  /**
   * Live request timers are exactly the pending requests, one each; timer ids and request ids still
   * to be given out are unused.
   */
  ghost predicate Consistent(s: State) {
    && (forall q :: q in s.pending ==> HasTimer(s, q))
    && (forall t :: t in s.timers ==> HasRequest(s, t))
    && (forall t :: t in s.timers ==> t < s.nextTimer)
    && (forall q :: q in s.pending ==> Issued(q, s.requestSeq))
  }

  /** Nothing that Consistent speaks about changed. */
  predicate SameTables(s: State, t: State) {
    s.pending == t.pending && s.timers == t.timers && s.nextTimer == t.nextTimer && s.requestSeq == t.requestSeq
  }

  lemma ConsistentFrame(s: State, t: State)
    requires Consistent(s) && SameTables(s, t)
    ensures Consistent(t)
  {
    forall q | q in t.pending ensures HasTimer(t, q) { assert HasTimer(s, q); }
    forall k | k in t.timers ensures HasRequest(t, k) { assert HasRequest(s, k); }
  }

  lemma ArmConsistent(s: State, kind: TimerKind, delay: nat)
    requires Consistent(s) && !kind.RequestTimeout?
    ensures Consistent(SetTimeout(s, kind, delay))
  {
    var s' := SetTimeout(s, kind, delay);
    forall q | q in s'.pending ensures HasTimer(s', q) { assert HasTimer(s, q); }
    forall k | k in s'.timers ensures HasRequest(s', k) { assert k in s.timers ==> HasRequest(s, k); }
  }

  lemma DisarmConsistent(s: State, t: TimerId)
    requires Consistent(s) && (t in s.timers ==> !s.timers[t].kind.RequestTimeout?)
    ensures Consistent(ClearTimeout(s, t))
  {
    var s' := ClearTimeout(s, t);
    forall q | q in s'.pending ensures HasTimer(s', q) { assert HasTimer(s, q); }
    forall k | k in s'.timers ensures HasRequest(s', k) { assert HasRequest(s, k); }
  }

  lemma AcceptConsistent(s: State, cmdId: string, clock: int)
    requires Consistent(s)
    ensures Consistent(Accept(s, cmdId, RequestId(clock, s.requestSeq + 1)))
    ensures RequestId(clock, s.requestSeq + 1) !in s.pending
  {
    hide RequestId, D.Mark;
    var requestId := RequestId(clock, s.requestSeq + 1);
    var s' := Accept(s, cmdId, requestId);
    forall q | q in s.pending ensures q != requestId && Issued(q, s'.requestSeq) {
      NextIdIsFresh(q, s.requestSeq, clock);
      IssuedLater(q, s.requestSeq, s'.requestSeq);
    }
    assert Issued(requestId, s'.requestSeq);
    forall q | q in s'.pending ensures HasTimer(s', q) { assert q in s.pending ==> HasTimer(s, q); }
    forall k | k in s'.timers ensures HasRequest(s', k) { assert k in s.timers ==> HasRequest(s, k); }
  }

  lemma SettleConsistent(s: State, q: string, frame: Json)
    requires Consistent(s) && q in s.pending
    ensures Consistent(Settle(s, q, frame))
  {
    var s' := Settle(s, q, frame);
    assert HasTimer(s, q);
    forall r | r in s'.pending ensures HasTimer(s', r) { assert HasTimer(s, r); }
    forall k | k in s'.timers ensures HasRequest(s', k) { assert HasRequest(s, k); }
  }

  lemma RequestTimerConsistent(s: State, t: TimerId)
    requires Consistent(s) && t in s.timers && s.timers[t].kind.RequestTimeout?
    ensures Consistent(RequestTimerFires(ClearTimeout(s, t), s.timers[t].kind.requestId, s.timers[t].kind.cmdId))
    ensures s.timers[t].kind.requestId in s.pending
            && s.pending[s.timers[t].kind.requestId].cmdId == s.timers[t].kind.cmdId
  {
    var q := s.timers[t].kind.requestId;
    var s' := RequestTimerFires(ClearTimeout(s, t), q, s.timers[t].kind.cmdId);
    assert HasRequest(s, t) && HasTimer(s, q);
    forall r | r in s'.pending ensures HasTimer(s', r) { assert HasTimer(s, r); }
    forall k | k in s'.timers ensures HasRequest(s', k) { assert HasRequest(s, k); }
  }

  lemma BindConsistent(s: State, onThrows: bool)
    requires Consistent(s)
    ensures Consistent(BindCommBus(s, onThrows))
  {
    ConsistentFrame(s, BindCommBus(s, onThrows));
  }

  lemma ScheduleBindConsistent(s: State)
    requires Consistent(s)
    ensures Consistent(ScheduleBindRetry(s))
  {
    if !s.commBusBound && s.bindRetryTimerId.None? {
      var armed := SetTimeout(s, BindRetry, s.cfg.bindRetryMs);
      ArmConsistent(s, BindRetry, s.cfg.bindRetryMs);
      ConsistentFrame(armed, ScheduleBindRetry(s));
    }
  }

  lemma ScheduleWsConsistent(s: State)
    requires Consistent(s)
    ensures Consistent(ScheduleWsReconnect(s))
  {
    if s.wsRetryTimerId.None? {
      var armed := SetTimeout(s, Reconnect, s.cfg.reconnectMs);
      ArmConsistent(s, Reconnect, s.cfg.reconnectMs);
      ConsistentFrame(armed, ScheduleWsReconnect(s));
    }
  }

  lemma ConnectConsistent(s: State, ctorThrows: bool)
    requires Consistent(s)
    ensures Consistent(ConnectWs(s, ctorThrows))
  {
    ConsistentFrame(s, s.(ws := None));
    ScheduleWsConsistent(s.(ws := None));
    ConsistentFrame(s, s.(ws := Some(|s.sockets|), sockets := s.sockets + [Connecting]));
  }

  lemma BindRetryConsistent(s: State, onThrows: bool)
    requires Consistent(s)
    ensures Consistent(BindRetryFires(s, onThrows))
  {
    var s1 := s.(bindRetryTimerId := None);
    ConsistentFrame(s, s1);
    BindConsistent(s1, onThrows);
    ScheduleBindConsistent(if s1.commBus then BindCommBus(s1, onThrows) else s1);
  }

  lemma DispatchConsistent(s: State, requestId: string, cmd: Json, onThrows: bool)
    requires Consistent(s) && requestId in s.pending
    ensures Consistent(Dispatch(s, requestId, cmd, onThrows))
  {
    if s.commBus {
      BindConsistent(s, onThrows);
      ConsistentFrame(BindCommBus(s, onThrows), Dispatch(s, requestId, cmd, onThrows));
    } else {
      SettleConsistent(s, requestId, AckErr(s.pending[requestId].cmdId, NOT_READY));
    }
  }

  lemma FreshCommandConsistent(s: State, cmdId: string, requestId: string, cmd: Json, clock: int, onThrows: bool)
    requires Consistent(s) && requestId == RequestId(clock, s.requestSeq + 1)
    ensures Consistent(Dispatch(Accept(s, cmdId, requestId), requestId, cmd, onThrows))
  {
    AcceptConsistent(s, cmdId, clock);
    DispatchConsistent(Accept(s, cmdId, requestId), requestId, cmd, onThrows);
  }

  lemma CommandConsistent(s: State, cmd: Json, clock: int, onThrows: bool)
    requires Consistent(s)
    ensures Consistent(OnHostCommand(s, cmd, clock, onThrows))
  {
    match cmd.Get("id")
    case Some(Str(cmdId)) =>
      if D.Has(s.dedup, cmdId) {
        ConsistentFrame(s, WsSend(s, AckDuplicate(cmdId), Duplicate));
      } else {
        var requestId := RequestId(clock, s.requestSeq + 1);
        FreshCommandConsistent(s, cmdId, requestId, cmd, clock, onThrows);
        assert OnHostCommand(s, cmd, clock, onThrows) == Dispatch(Accept(s, cmdId, requestId), requestId, cmd, onThrows);
      }
    case _ =>
  }

  lemma EventConsistent(s: State, event: Json, clock: int)
    requires Consistent(s)
    ensures Consistent(OnHostEvent(s, event, clock))
  {
    if s.commBus {
      var s' := OnHostEvent(s, event, clock);
      forall q | q in s.pending ensures Issued(q, s'.requestSeq) { IssuedLater(q, s.requestSeq, s'.requestSeq); }
      forall q | q in s'.pending ensures HasTimer(s', q) { assert HasTimer(s, q); }
      forall k | k in s'.timers ensures HasRequest(s', k) { assert HasRequest(s, k); }
    }
  }

  lemma HostMessageConsistent(s: State, msg: Json, clock: int, onThrows: bool)
    requires Consistent(s)
    ensures Consistent(OnHostMessage(s, msg, clock, onThrows))
  {
    ConsistentFrame(s, WsSend(s, PongFrame(clock), Keepalive));
    CommandConsistent(s, msg, clock, onThrows);
    EventConsistent(s, msg, clock);
  }

  lemma WasmMessageConsistent(s: State, msg: Json)
    requires Consistent(s)
    ensures Consistent(OnWasmMessage(s, msg))
  {
    hide AckErr, AckOk, ErrorText, Settle;
    match msg.Get("requestId")
    case Some(Str(q)) =>
      if q in s.pending {
        SettleConsistent(s, q, AckErr(s.pending[q].cmdId, ErrorText(msg)));
        SettleConsistent(s, q, AckOk(s.pending[q].cmdId, msg.Get("response")));
      }
    case _ =>
      ConsistentFrame(s, OnWasmMessage(s, msg));
  }

  /** Tearing everything down clears the timers of the walked entries and nothing else. */
  lemma {:induction false} RejectAllEffect(s: State, order: seq<string>)
    requires forall q :: q in order ==> q in s.pending
    ensures var r := RejectAll(s, order);
            && r == s.(timers := r.timers, out := r.out)
            && (forall t :: t in r.timers <==> t in s.timers && forall q :: q in order ==> s.pending[q].timerId != t)
            && (forall t :: t in r.timers ==> r.timers[t] == s.timers[t])
    decreases order
  {
    if order != [] {
      var p := s.pending[order[0]];
      var s1 := WsSend(ClearTimeout(s, p.timerId), AckErr(p.cmdId, DESTROYED), Settles(order[0]));
      RejectAllEffect(s1, order[1..]);
      assert order == [order[0]] + order[1..];
    }
  }

  lemma NoRequestTimersLeft(s: State, order: seq<string>, t: TimerId)
    requires Consistent(s) && forall q :: q in order <==> q in s.pending
    requires t in RejectAll(s, order).timers
    ensures t in s.timers && RejectAll(s, order).timers[t] == s.timers[t] && !s.timers[t].kind.RequestTimeout?
  {
    RejectAllEffect(s, order);
    assert HasRequest(s, t);
  }

  lemma DestroyFields(s: State, order: seq<string>)
    requires forall q :: q in order ==> q in s.pending
    ensures var s' := Destroy(s, order);
            && s'.pending == map[] && s'.nextTimer == RejectAll(s, order).nextTimer
            && (forall t :: t in s'.timers ==> t in RejectAll(s, order).timers
                                               && s'.timers[t] == RejectAll(s, order).timers[t])
  {
  }

  lemma DestroyConsistent(s: State, order: seq<string>)
    requires Consistent(s) && forall q :: q in order <==> q in s.pending
    ensures Consistent(Destroy(s, order))
  {
    RejectAllEffect(s, order);
    DestroyFields(s, order);
    var s' := Destroy(s, order);
    forall k | k in s'.timers ensures HasRequest(s', k) && k < s'.nextTimer {
      NoRequestTimersLeft(s, order, k);
    }
  }

  /** Every handler, `destroy` included, keeps request timers and pending requests in step. */
  lemma StepConsistent(s: State, i: Input)
    requires Consistent(s) && Enabled(s, i)
    ensures Consistent(Step(s, i))
  {
    var s0 := s.(out := []);
    ConsistentFrame(s, s0);
    match i
    case Continuation(onThrows) => BindConsistent(s0, onThrows);
    case TimerFires(t, onThrows, ctorThrows) =>
      match s0.timers[t].kind {
        case RequestTimeout(q, c) => RequestTimerConsistent(s0, t);
        case BindRetry =>
          DisarmConsistent(s0, t);
          BindRetryConsistent(ClearTimeout(s0, t), onThrows);
        case Reconnect =>
          DisarmConsistent(s0, t);
          var s1 := ClearTimeout(s0, t).(wsRetryTimerId := None);
          ConsistentFrame(ClearTimeout(s0, t), s1);
          ConnectConsistent(s1, ctorThrows);
      }
    case SocketOpens(k, clock) => ConsistentFrame(s0, Step(s, i));
    case SocketChanges(k, to) => ConsistentFrame(s0, Step(s, i));
    case SocketErrors(_) =>
      ConsistentFrame(s0, s0.(ws := None));
      ScheduleWsConsistent(s0.(ws := None));
    case SocketCloses(_) =>
      ConsistentFrame(s0, s0.(ws := None));
      ScheduleWsConsistent(s0.(ws := None));
    case HostSends(_, msg, clock, onThrows) => HostMessageConsistent(s0, msg, clock, onThrows);
    case WasmSends(msg) => WasmMessageConsistent(s0, msg);
    case CallRejects(q, reason) =>
      if q in s0.pending { SettleConsistent(s0, q, AckErr(s0.pending[q].cmdId, reason)); }
    case TimePasses(_) => ConsistentFrame(s0, Step(s, i));
    case Destroyed(order) => DestroyConsistent(s0, order);
  }

  // ---- Connection state ----

  ghost predicate TimerArmed(s: State, kind: TimerKind, id: Option<TimerId>) {
    && (id.Some? ==> Live(s, id.value, kind))
    && (forall t :: t in s.timers && s.timers[t].kind == kind ==> id == Some(t))
  }

  /**
   * The relay can always get back: a socket is held or exactly one reconnect timer is armed, never
   * both; the listener is attached exactly once or exactly one bind retry is armed.
   */
  ghost predicate NeverStranded(s: State) {
    && s.commBus
    && (s.ws.Some? <==> s.wsRetryTimerId.None?)
    && (s.ws.Some? ==> s.ws.value < |s.sockets|)
    && TimerArmed(s, Reconnect, s.wsRetryTimerId)
    && (s.commBusBound || s.bindRetryTimerId.Some?)
    && TimerArmed(s, BindRetry, s.bindRetryTimerId)
    && s.listeners == (if s.commBusBound then 1 else 0)
    && (forall t :: t in s.timers ==> t < s.nextTimer)
  }

  /** From a relay that was just constructed, `init` reaches such a state however it goes. */
  lemma InitNeverStranded(cfg: Config, capacity: nat, ctorThrows: bool, onThrows: bool)
    ensures var s := Init(Fresh(cfg, capacity), ctorThrows, onThrows); NeverStranded(s) && Consistent(s)
  {
    var s0 := Fresh(cfg, capacity);
    assert Consistent(s0);
    var s1 := ConnectWs(s0, ctorThrows).(commBus := true);
    ConnectConsistent(s0, ctorThrows);
    ConsistentFrame(ConnectWs(s0, ctorThrows), s1);
    BindConsistent(s1, onThrows);
    ScheduleBindConsistent(BindCommBus(s1, onThrows));
  }

  predicate RequestTimer(s: State, t: TimerId) {
    t in s.timers && s.timers[t].kind.RequestTimeout?
  }

  /** Nothing that NeverStranded speaks about changed: only request timers came or went. */
  ghost predicate SameConnection(s: State, s': State) {
    && s'.commBus == s.commBus && s'.commBusBound == s.commBusBound && s'.listeners == s.listeners
    && s'.ws == s.ws && s'.wsRetryTimerId == s.wsRetryTimerId && s'.bindRetryTimerId == s.bindRetryTimerId
    && |s'.sockets| == |s.sockets| && s.nextTimer <= s'.nextTimer
    && (forall t :: t in s'.timers ==>
          t < s'.nextTimer && (RequestTimer(s', t) || (t in s.timers && s'.timers[t] == s.timers[t])))
    && (forall t :: t in s.timers ==> RequestTimer(s, t) || (t in s'.timers && s'.timers[t] == s.timers[t]))
  }

  lemma ConnectionFrame(s: State, s': State)
    requires NeverStranded(s) && SameConnection(s, s')
    ensures NeverStranded(s')
  {
  }

  lemma SettleKeepsConnection(s: State, q: string, frame: Json)
    requires Consistent(s) && NeverStranded(s) && q in s.pending
    ensures NeverStranded(Settle(s, q, frame))
  {
    assert HasTimer(s, q);
    ConnectionFrame(s, Settle(s, q, frame));
  }

  lemma BindKeepsConnection(s: State, onThrows: bool)
    requires NeverStranded(s)
    ensures NeverStranded(BindCommBus(s, onThrows))
  {
  }

  lemma DispatchKeepsConnection(s: State, requestId: string, cmd: Json, onThrows: bool)
    requires NeverStranded(s) && requestId in s.pending
    ensures NeverStranded(Dispatch(s, requestId, cmd, onThrows))
  {
    BindKeepsConnection(s, onThrows);
    ConnectionFrame(BindCommBus(s, onThrows), Dispatch(s, requestId, cmd, onThrows));
  }

  lemma FreshCommandKeepsConnection(s: State, cmdId: string, requestId: string, cmd: Json, onThrows: bool)
    requires NeverStranded(s)
    ensures NeverStranded(Dispatch(Accept(s, cmdId, requestId), requestId, cmd, onThrows))
  {
    ConnectionFrame(s, Accept(s, cmdId, requestId));
    DispatchKeepsConnection(Accept(s, cmdId, requestId), requestId, cmd, onThrows);
  }

  lemma CommandKeepsConnection(s: State, cmd: Json, clock: int, onThrows: bool)
    requires NeverStranded(s)
    ensures NeverStranded(OnHostCommand(s, cmd, clock, onThrows))
  {
    hide Dispatch;
    match cmd.Get("id")
    case Some(Str(cmdId)) =>
      FreshCommandKeepsConnection(s, cmdId, RequestId(clock, s.requestSeq + 1), cmd, onThrows);
      ConnectionFrame(s, WsSend(s, AckDuplicate(cmdId), Duplicate));
    case _ =>
  }

  lemma HostMessageKeepsConnection(s: State, msg: Json, clock: int, onThrows: bool)
    requires NeverStranded(s)
    ensures NeverStranded(OnHostMessage(s, msg, clock, onThrows))
  {
    hide OnHostCommand;
    ConnectionFrame(s, WsSend(s, PongFrame(clock), Keepalive));
    CommandKeepsConnection(s, msg, clock, onThrows);
    ConnectionFrame(s, OnHostEvent(s, msg, clock));
  }

  lemma SendKeepsConnection(s: State, frame: Json, cause: Cause)
    requires NeverStranded(s)
    ensures NeverStranded(WsSend(s, frame, cause))
  {
    ConnectionFrame(s, WsSend(s, frame, cause));
  }

  lemma WasmMessageKeepsConnection(s: State, msg: Json)
    requires Consistent(s) && NeverStranded(s)
    ensures NeverStranded(OnWasmMessage(s, msg))
  {
    hide NeverStranded, Consistent, AckErr, AckOk, ErrorText, Settle, WsSend;
    match msg.Get("requestId")
    case Some(Str(q)) =>
      if q in s.pending {
        SettleKeepsConnection(s, q, AckErr(s.pending[q].cmdId, ErrorText(msg)));
        SettleKeepsConnection(s, q, AckOk(s.pending[q].cmdId, msg.Get("response")));
      }
    case _ =>
      SendKeepsConnection(s, msg, Forwards);
  }

  lemma BindRetryKeepsConnection(s: State, t: TimerId, onThrows: bool)
    requires NeverStranded(s) && Live(s, t, BindRetry)
    ensures NeverStranded(BindRetryFires(ClearTimeout(s, t), onThrows))
  {
    assert s.bindRetryTimerId == Some(t);
    var s1 := ClearTimeout(s, t).(bindRetryTimerId := None);
    var s2 := BindCommBus(s1, onThrows);
    assert s2.timers == s.timers - {t} && s2.wsRetryTimerId == s.wsRetryTimerId;
    assert TimerArmed(s2, Reconnect, s2.wsRetryTimerId) && TimerArmed(s2, BindRetry, None);
  }

  lemma ReconnectKeepsConnection(s: State, t: TimerId, ctorThrows: bool)
    requires NeverStranded(s) && Live(s, t, Reconnect)
    ensures NeverStranded(ConnectWs(ClearTimeout(s, t).(wsRetryTimerId := None), ctorThrows))
  {
    assert s.wsRetryTimerId == Some(t) && s.ws.None?;
    var s1 := ClearTimeout(s, t).(wsRetryTimerId := None);
    assert TimerArmed(s1, Reconnect, None) && TimerArmed(s1, BindRetry, s1.bindRetryTimerId);
  }

  lemma ExpiryKeepsConnection(s: State, t: TimerId, q: string, c: string)
    requires NeverStranded(s) && t in s.timers && s.timers[t].kind.RequestTimeout?
    ensures NeverStranded(RequestTimerFires(ClearTimeout(s, t), q, c))
  {
    hide AckErr;
    ConnectionFrame(s, RequestTimerFires(ClearTimeout(s, t), q, c));
  }

  lemma TimerKeepsConnection(s: State, t: TimerId, onThrows: bool, ctorThrows: bool)
    requires Consistent(s) && NeverStranded(s) && t in s.timers && s.timers[t].due <= s.now
    ensures NeverStranded(Handle(s, TimerFires(t, onThrows, ctorThrows)))
  {
    hide Consistent, NeverStranded, RequestTimerFires, BindRetryFires, ConnectWs;
    match s.timers[t].kind
    case RequestTimeout(q, c) => ExpiryKeepsConnection(s, t, q, c);
    case BindRetry => BindRetryKeepsConnection(s, t, onThrows);
    case Reconnect => ReconnectKeepsConnection(s, t, ctorThrows);
  }

  lemma LoseWsKeepsConnection(s: State)
    requires NeverStranded(s)
    ensures NeverStranded(LoseWs(s))
  {
  }

  /** Every handler before `destroy` keeps the relay recoverable. */
  lemma StepNeverStranded(s: State, i: Input)
    requires Consistent(s) && NeverStranded(s) && Enabled(s, i) && !i.Destroyed?
    ensures NeverStranded(Step(s, i))
  {
    hide NeverStranded, Consistent, OnHostMessage, OnWasmMessage, BindCommBus, LoseWs, BindRetryFires, ConnectWs, RequestTimerFires;
    var s0 := s.(out := []);
    ConsistentFrame(s, s0);
    ConnectionFrame(s, s0);
    match i
    case Continuation(onThrows) => BindKeepsConnection(s0, onThrows);
    case TimerFires(t, onThrows, ctorThrows) => TimerKeepsConnection(s0, t, onThrows, ctorThrows);
    case SocketOpens(_, _) => ConnectionFrame(s, Step(s, i));
    case SocketChanges(_, _) => ConnectionFrame(s, Step(s, i));
    case SocketErrors(_) => LoseWsKeepsConnection(s0);
    case SocketCloses(_) => LoseWsKeepsConnection(s0);
    case HostSends(_, msg, clock, onThrows) => HostMessageKeepsConnection(s0, msg, clock, onThrows);
    case WasmSends(msg) => WasmMessageKeepsConnection(s0, msg);
    case CallRejects(q, reason) =>
      if q in s0.pending { SettleKeepsConnection(s0, q, AckErr(s0.pending[q].cmdId, reason)); }
    case TimePasses(_) => ConnectionFrame(s, Step(s, i));
  }

  /** Bound stays bound until `destroy`. */
  lemma BoundIsStable(s: State, i: Input)
    requires Enabled(s, i) && !i.Destroyed? && s.commBusBound
    ensures Step(s, i).commBusBound
  {
  }

  /**
   * The relay's diagnosis: a request that times out is refused under its own command id, with the
   * reason that fits the bind state, and it and its timer are gone.
   */
  lemma TimeoutDiagnosis(s: State, i: Input)
    requires Consistent(s) && i.TimerFires? && Enabled(s, i) && s.timers[i.timer].kind.RequestTimeout?
    ensures var q := s.timers[i.timer].kind.requestId;
            var via := if s.ws.Some? && IsOpen(s, s.ws.value) then s.ws else None;
            q in s.pending &&
            var ack := AckErr(s.pending[q].cmdId, if s.commBusBound then TIMED_OUT else NOT_BOUND);
            Step(s, i) == s.(pending := s.pending - {q}, timers := s.timers - {i.timer},
                             out := [Send(via, ack, Settles(q))])
  {
    assert HasRequest(s, i.timer);
    hide AckErr;
  }
}
