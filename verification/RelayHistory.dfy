/** Whole runs of one relay: what is accepted, settled and forwarded over time. */
module RelayHistory {
  import opened Base
  import opened Json
  import opened Wire
  import opened RequestIds
  import opened Relay
  import opened RelayInvariants
  import D = Dedup

  /** An answer sent for one request. */
  datatype Settlement = Settlement(requestId: string, frame: Json)

  /** A command envelope handed to the CommBus, with the number of commands accepted by then. */
  datatype Forward = Forward(accepted: nat, envelope: Json)

  datatype History = History(
    relay: State,
    accepted: map<string, string>,  // request id to command id
    ids: seq<string>,               // accepted command ids, in order
    settled: seq<Settlement>,
    forwarded: seq<Forward>)

  function SettlementOf(o: Out): seq<Settlement> {
    if o.Send? && o.cause.Settles? then [Settlement(o.cause.requestId, o.frame)] else []
  }

  function Settlements(out: seq<Out>): seq<Settlement> {
    if out == [] then [] else Settlements(out[..|out| - 1]) + SettlementOf(out[|out| - 1])
  }

  predicate CarriesCommand(envelope: Json) {
    var payload := envelope.Get("payload");
    payload.Some? && payload.value.Tag() == Some("cmd")
  }

  function ForwardOf(o: Out, accepted: nat): seq<Forward> {
    if o.Call? && CarriesCommand(o.envelope) then [Forward(accepted, o.envelope)] else []
  }

  function Forwarded(out: seq<Out>, accepted: nat): seq<Forward> {
    if out == [] then [] else Forwarded(out[..|out| - 1], accepted) + ForwardOf(out[|out| - 1], accepted)
  }

  lemma Appended(out: seq<Out>, o: Out, accepted: nat)
    ensures Settlements(out + [o]) == Settlements(out) + SettlementOf(o)
    ensures Forwarded(out + [o], accepted) == Forwarded(out, accepted) + ForwardOf(o, accepted)
  {
    assert (out + [o])[..|out|] == out;
  }

  /** The command a message would have the relay accept. */
  function Offered(s: State, i: Input): Option<string> {
    if i.HostSends? && i.msg.Tag() == Some("cmd") then
      match i.msg.Get("id")
      case Some(Str(id)) => if D.Has(s.dedup, id) then None else Some(id)
      case _ => None
    else None
  }

  function AcceptedBy(s: State, i: Input, accepted: map<string, string>): map<string, string> {
    var offered := Offered(s, i);
    if offered.Some? then accepted[RequestId(i.clock, s.requestSeq + 1) := offered.value] else accepted
  }

  function Advance(h: History, i: Input): History
    requires Enabled(h.relay, i)
  {
    var relay := Step(h.relay, i);
    var offered := Offered(h.relay, i);
    var ids := if offered.Some? then h.ids + [offered.value] else h.ids;
    History(relay, AcceptedBy(h.relay, i, h.accepted), ids,
            h.settled + Settlements(relay.out), h.forwarded + Forwarded(relay.out, |ids|))
  }

  ghost predicate Initial(h: History, cfg: Config, capacity: nat) {
    exists ctorThrows, onThrows ::
      h == History(Init(Fresh(cfg, capacity), ctorThrows, onThrows).(out := []), map[], [], [], [])
  }

  ghost predicate IsRun(run: seq<History>, inputs: seq<Input>, cfg: Config, capacity: nat) {
    && |run| == |inputs| + 1
    && Initial(run[0], cfg, capacity)
    && forall k :: 0 <= k < |inputs| ==>
         Enabled(run[k].relay, inputs[k]) && run[k + 1] == Advance(run[k], inputs[k])
  }

  // ---- Exactly-once settlement ----

  predicate Answers(frame: Json, cmdId: string) {
    frame.Tag() == Some("ack") && frame.Get("id") == Some(Str(cmdId))
  }

  ghost predicate DistinctRequests(settled: seq<Settlement>) {
    forall i, j :: 0 <= i < j < |settled| ==> settled[i].requestId != settled[j].requestId
  }

  ghost predicate IsSettled(settled: seq<Settlement>, q: string) {
    exists k :: 0 <= k < |settled| && settled[k].requestId == q
  }

  /** Every accepted request is pending or settled, never both, and settled at most once. */
  ghost predicate Conserved(pending: map<string, Pending>, accepted: map<string, string>, settled: seq<Settlement>) {
    && DistinctRequests(settled)
    && (forall k :: 0 <= k < |settled| ==>
          settled[k].requestId in accepted && Answers(settled[k].frame, accepted[settled[k].requestId]))
    && (forall q :: q in pending ==> q in accepted && accepted[q] == pending[q].cmdId && !IsSettled(settled, q))
    && (forall q :: q in accepted ==> q in pending || IsSettled(settled, q))
  }

  lemma AckAnswers(cmdId: string, response: Option<Json>, error: string)
    ensures Answers(AckOk(cmdId, response), cmdId) && Answers(AckErr(cmdId, error), cmdId)
  {
  }

  lemma SettledOnce(pending: map<string, Pending>, accepted: map<string, string>, settled: seq<Settlement>, q: string, frame: Json)
    requires Conserved(pending, accepted, settled) && q in pending && Answers(frame, pending[q].cmdId)
    ensures Conserved(pending - {q}, accepted, settled + [Settlement(q, frame)])
  {
    var more := settled + [Settlement(q, frame)];
    forall r | r in accepted ensures r in pending - {q} || IsSettled(more, r) {
      if IsSettled(settled, r) {
        var k :| 0 <= k < |settled| && settled[k].requestId == r;
        assert more[k].requestId == r;
      } else if r == q {
        assert more[|settled|].requestId == q;
      }
    }
    forall r | r in pending - {q} ensures !IsSettled(more, r) {
      assert !IsSettled(settled, r);
    }
    forall k | 0 <= k < |settled| ensures settled[k].requestId != q {
      assert !IsSettled(settled, q);
    }
  }

  lemma AcceptedOnce(pending: map<string, Pending>, accepted: map<string, string>, settled: seq<Settlement>, q: string, p: Pending)
    requires Conserved(pending, accepted, settled) && q !in accepted
    ensures Conserved(pending[q := p], accepted[q := p.cmdId], settled)
  {
    forall r | r in pending[q := p] ensures !IsSettled(settled, r) {
      assert forall k :: 0 <= k < |settled| ==> settled[k].requestId in accepted;
    }
  }

  /** The state in the middle of a handler, with what it has sent so far added to the history. */
  ghost predicate Balanced(s: State, accepted: map<string, string>, before: seq<Settlement>) {
    Conserved(s.pending, accepted, before + Settlements(s.out))
  }

  lemma SendBalanced(s: State, accepted: map<string, string>, before: seq<Settlement>, frame: Json, cause: Cause)
    requires Balanced(s, accepted, before) && !cause.Settles?
    ensures Balanced(WsSend(s, frame, cause), accepted, before)
  {
    var s' := WsSend(s, frame, cause);
    Appended(s.out, s'.out[|s.out|], 0);
    assert Settlements(s'.out) == Settlements(s.out);
  }

  /** The entry is out of the table; sending its answer restores the balance. */
  lemma AnswerBalanced(s: State, s1: State, accepted: map<string, string>, before: seq<Settlement>, q: string, frame: Json)
    requires Balanced(s, accepted, before) && q in s.pending && Answers(frame, s.pending[q].cmdId)
    requires s1.pending == s.pending - {q} && s1.out == s.out
    ensures Balanced(WsSend(s1, frame, Settles(q)), accepted, before)
  {
    hide Conserved, Answers;
    var s' := WsSend(s1, frame, Settles(q));
    Appended(s.out, s'.out[|s.out|], 0);
    SettledOnce(s.pending, accepted, before + Settlements(s.out), q, frame);
    assert before + Settlements(s'.out) == (before + Settlements(s.out)) + [Settlement(q, frame)];
  }

  lemma SettleBalanced(s: State, accepted: map<string, string>, before: seq<Settlement>, q: string, frame: Json)
    requires Balanced(s, accepted, before) && q in s.pending && Answers(frame, s.pending[q].cmdId)
    ensures Balanced(Settle(s, q, frame), accepted, before)
  {
    hide Balanced, Answers, WsSend;
    AnswerBalanced(s, ClearTimeout(s.(pending := s.pending - {q}), s.pending[q].timerId), accepted, before, q, frame);
  }

  lemma TimeoutBalanced(s: State, accepted: map<string, string>, before: seq<Settlement>, q: string, cmdId: string)
    requires Balanced(s, accepted, before) && q in s.pending && s.pending[q].cmdId == cmdId
    ensures Balanced(RequestTimerFires(s, q, cmdId), accepted, before)
  {
    hide Balanced, Answers, WsSend, AckErr;
    var error := if s.commBusBound then TIMED_OUT else NOT_BOUND;
    AckAnswers(cmdId, None, error);
    AnswerBalanced(s, s.(pending := s.pending - {q}), accepted, before, q, AckErr(cmdId, error));
  }

  lemma BindBalanced(s: State, accepted: map<string, string>, before: seq<Settlement>, onThrows: bool)
    requires Balanced(s, accepted, before)
    ensures Balanced(BindCommBus(s, onThrows), accepted, before)
  {
    var s1 := s.(listeners := s.listeners + 1, commBusBound := true);
    assert Balanced(s1, accepted, before);
    SendBalanced(s1, accepted, before, Print(ReadyMsg(true)), Ready);
  }

  lemma CallBalanced(s: State, accepted: map<string, string>, before: seq<Settlement>, envelope: Json)
    requires Balanced(s, accepted, before)
    ensures Balanced(s.(out := s.out + [Call(envelope)]), accepted, before)
  {
    Appended(s.out, Call(envelope), 0);
    assert Settlements(s.out + [Call(envelope)]) == Settlements(s.out);
  }

  lemma DispatchBalanced(s: State, accepted: map<string, string>, before: seq<Settlement>, q: string, cmd: Json, onThrows: bool)
    requires Balanced(s, accepted, before) && q in s.pending
    ensures Balanced(Dispatch(s, q, cmd, onThrows), accepted, before)
  {
    if s.commBus {
      BindBalanced(s, accepted, before, onThrows);
      CallBalanced(BindCommBus(s, onThrows), accepted, before, Envelope(q, cmd));
    } else {
      AckAnswers(s.pending[q].cmdId, None, NOT_READY);
      SettleBalanced(s, accepted, before, q, AckErr(s.pending[q].cmdId, NOT_READY));
    }
  }

  lemma AcceptBalanced(s: State, accepted: map<string, string>, before: seq<Settlement>, q: string, cmdId: string)
    requires Balanced(s, accepted, before) && q !in accepted
    ensures Balanced(Accept(s, cmdId, q), accepted[q := cmdId], before)
  {
    var p := Pending(cmdId, s.nextTimer);
    AcceptedOnce(s.pending, accepted, before + Settlements(s.out), q, p);
    assert Accept(s, cmdId, q).pending == s.pending[q := p] && Accept(s, cmdId, q).out == s.out;
  }

  function DestroyAcks(s: State, order: seq<string>): seq<Settlement>
    requires forall q :: q in order ==> q in s.pending
  {
    if order == [] then []
    else [Settlement(order[0], AckErr(s.pending[order[0]].cmdId, DESTROYED))] + DestroyAcks(s, order[1..])
  }

  lemma {:induction false} DestroyAcksOf(s: State, t: State, order: seq<string>)
    requires s.pending == t.pending && forall q :: q in order ==> q in s.pending
    ensures DestroyAcks(s, order) == DestroyAcks(t, order)
    decreases order
  {
    if order != [] { DestroyAcksOf(s, t, order[1..]); }
  }

  lemma {:induction false} RejectAllSettles(s: State, order: seq<string>)
    requires forall q :: q in order ==> q in s.pending
    ensures Settlements(RejectAll(s, order).out) == Settlements(s.out) + DestroyAcks(s, order)
    decreases order
  {
    hide AckErr;
    if order != [] {
      var p := s.pending[order[0]];
      var s1 := WsSend(ClearTimeout(s, p.timerId), AckErr(p.cmdId, DESTROYED), Settles(order[0]));
      Appended(s.out, s1.out[|s.out|], 0);
      RejectAllSettles(s1, order[1..]);
      DestroyAcksOf(s, s1, order[1..]);
    }
  }

  lemma {:induction false} AllSettledOnce(s: State, order: seq<string>, pending: map<string, Pending>, accepted: map<string, string>, settled: seq<Settlement>)
    requires Distinct(order) && (forall q :: q in order <==> q in pending)
    requires forall q :: q in pending ==> q in s.pending && s.pending[q] == pending[q]
    requires Conserved(pending, accepted, settled)
    ensures Conserved(map[], accepted, settled + DestroyAcks(s, order))
    decreases order
  {
    if order == [] {
      assert settled + DestroyAcks(s, order) == settled;
      assert pending == map[];
    } else {
      var q, rest := order[0], order[1..];
      var frame := AckErr(s.pending[q].cmdId, DESTROYED);
      AckAnswers(s.pending[q].cmdId, None, DESTROYED);
      SettledOnce(pending, accepted, settled, q, frame);
      assert forall r :: r in order <==> r == q || r in rest by { assert order == [q] + rest; }
      AllSettledOnce(s, rest, pending - {q}, accepted, settled + [Settlement(q, frame)]);
      AcksUnfold(s, order, settled);
    }
  }

  lemma AcksUnfold(s: State, order: seq<string>, settled: seq<Settlement>)
    requires order != [] && forall q :: q in order ==> q in s.pending
    ensures settled + [Settlement(order[0], AckErr(s.pending[order[0]].cmdId, DESTROYED))] + DestroyAcks(s, order[1..])
         == settled + DestroyAcks(s, order)
  {
  }

  lemma DestroyOutputs(s: State, order: seq<string>)
    requires forall q :: q in order ==> q in s.pending
    ensures Destroy(s, order).out == RejectAll(s, order).out && Destroy(s, order).pending == map[]
  {
  }

  lemma EmptiedBalanced(s: State, t: State, accepted: map<string, string>, before: seq<Settlement>, order: seq<string>)
    requires Balanced(s, accepted, before)
    requires Distinct(order) && forall q :: q in order <==> q in s.pending
    requires t.pending == map[] && Settlements(t.out) == Settlements(s.out) + DestroyAcks(s, order)
    ensures Balanced(t, accepted, before)
  {
    hide Conserved, Settlements, DestroyAcks;
    var all := before + Settlements(s.out);
    AllSettledOnce(s, order, s.pending, accepted, all);
    assert before + Settlements(t.out) == all + DestroyAcks(s, order);
  }

  lemma DestroyBalanced(s: State, accepted: map<string, string>, before: seq<Settlement>, order: seq<string>)
    requires Balanced(s, accepted, before)
    requires Distinct(order) && forall q :: q in order <==> q in s.pending
    ensures Balanced(Destroy(s, order), accepted, before)
  {
    hide Destroy, RejectAll, Balanced;
    RejectAllSettles(s, order);
    DestroyOutputs(s, order);
    EmptiedBalanced(s, Destroy(s, order), accepted, before, order);
  }

  // ---- The step ----

  ghost predicate Settling(h: History) {
    && Consistent(h.relay)
    && Conserved(h.relay.pending, h.accepted, h.settled)
    && (forall q :: q in h.accepted ==> Issued(q, h.relay.requestSeq))
  }

  lemma CommandBalanced(s: State, accepted: map<string, string>, before: seq<Settlement>, cmd: Json, clock: int, onThrows: bool)
    requires Balanced(s, accepted, before) && RequestId(clock, s.requestSeq + 1) !in accepted
    requires cmd.Tag() == Some("cmd")
    ensures Balanced(OnHostCommand(s, cmd, clock, onThrows),
                     AcceptedBy(s, HostSends(0, cmd, clock, onThrows), accepted), before)
  {
    hide Balanced, Dispatch;
    match cmd.Get("id")
    case Some(Str(cmdId)) =>
      if D.Has(s.dedup, cmdId) {
        SendBalanced(s, accepted, before, AckDuplicate(cmdId), Duplicate);
      } else {
        var q := RequestId(clock, s.requestSeq + 1);
        AcceptBalanced(s, accepted, before, q, cmdId);
        DispatchBalanced(Accept(s, cmdId, q), accepted[q := cmdId], before, q, cmd, onThrows);
      }
    case _ =>
  }

  lemma QuietBalanced(s: State, t: State, accepted: map<string, string>, before: seq<Settlement>)
    requires Balanced(s, accepted, before) && t.pending == s.pending && t.out == s.out
    ensures Balanced(t, accepted, before)
  {
  }

  lemma WasmBalanced(s: State, accepted: map<string, string>, before: seq<Settlement>, msg: Json)
    requires Balanced(s, accepted, before)
    ensures Balanced(OnWasmMessage(s, msg), accepted, before)
  {
    match msg.Get("requestId")
    case Some(Str(q)) =>
      if q in s.pending {
        AckAnswers(s.pending[q].cmdId, msg.Get("response"), ErrorText(msg));
        SettleBalanced(s, accepted, before, q, AckErr(s.pending[q].cmdId, ErrorText(msg)));
        SettleBalanced(s, accepted, before, q, AckOk(s.pending[q].cmdId, msg.Get("response")));
      }
    case _ => SendBalanced(s, accepted, before, msg, Forwards);
  }

  lemma BindRetryBalanced(s: State, accepted: map<string, string>, before: seq<Settlement>, onThrows: bool)
    requires Balanced(s, accepted, before)
    ensures Balanced(BindRetryFires(s, onThrows), accepted, before)
  {
    var s1 := s.(bindRetryTimerId := None);
    BindBalanced(s1, accepted, before, onThrows);
    var s2 := if s1.commBus then BindCommBus(s1, onThrows) else s1;
    hide BindCommBus, Conserved;
    QuietBalanced(s2, BindRetryFires(s, onThrows), accepted, before);
  }

  lemma TimerBalanced(s: State, accepted: map<string, string>, before: seq<Settlement>, t: TimerId, onThrows: bool, ctorThrows: bool)
    requires Consistent(s) && Enabled(s, TimerFires(t, onThrows, ctorThrows))
    requires Balanced(s, accepted, before)
    ensures Balanced(Handle(s, TimerFires(t, onThrows, ctorThrows)), accepted, before)
  {
    hide Conserved, RequestTimerFires, BindRetryFires;
    var s1 := ClearTimeout(s, t);
    QuietBalanced(s, s1, accepted, before);
    match s.timers[t].kind
    case RequestTimeout(q, c) =>
      RequestTimerConsistent(s, t);
      TimeoutBalanced(s1, accepted, before, q, c);
    case BindRetry =>
      BindRetryBalanced(s1, accepted, before, onThrows);
    case Reconnect =>
      QuietBalanced(s1, ConnectWs(s1.(wsRetryTimerId := None), ctorThrows), accepted, before);
  }

  lemma HostBalanced(s: State, accepted: map<string, string>, before: seq<Settlement>, k: SocketId, msg: Json, clock: int, onThrows: bool)
    requires Balanced(s, accepted, before) && RequestId(clock, s.requestSeq + 1) !in accepted
    ensures Balanced(OnHostMessage(s, msg, clock, onThrows),
                     AcceptedBy(s, HostSends(k, msg, clock, onThrows), accepted), before)
  {
    hide Balanced, OnHostCommand;
    if msg.Tag() == Some("ping") {
      SendBalanced(s, accepted, before, PongFrame(clock), Keepalive);
    } else if msg.Tag() == Some("cmd") {
      CommandBalanced(s, accepted, before, msg, clock, onThrows);
    } else if msg.Tag() == Some("event") && s.commBus {
      var envelope := Envelope(RequestId(clock, s.requestSeq + 1), msg);
      CallBalanced(s, accepted, before, envelope);
      QuietBalanced(s.(out := s.out + [Call(envelope)]), OnHostEvent(s, msg, clock), accepted, before);
    }
  }

  lemma OpenBalanced(s: State, accepted: map<string, string>, before: seq<Settlement>, clock: int)
    requires Balanced(s, accepted, before)
    ensures Balanced(OnOpen(s, clock), accepted, before)
  {
    SendBalanced(s, accepted, before, HelloFrame(s.cfg, clock), Greeting);
    SendBalanced(WsSend(s, HelloFrame(s.cfg, clock), Greeting), accepted, before, Print(ReadyMsg(s.commBusBound)), Ready);
  }

  lemma RejectionBalanced(s: State, accepted: map<string, string>, before: seq<Settlement>, q: string, reason: string)
    requires Balanced(s, accepted, before)
    ensures Balanced(CallRejected(s, q, reason), accepted, before)
  {
    if q in s.pending {
      AckAnswers(s.pending[q].cmdId, None, reason);
      SettleBalanced(s, accepted, before, q, AckErr(s.pending[q].cmdId, reason));
    }
  }

  /** Handlers that neither take a command nor tear the relay down. */
  lemma OtherBalanced(s: State, accepted: map<string, string>, before: seq<Settlement>, i: Input)
    requires Balanced(s, accepted, before) && Consistent(s) && Enabled(s, i)
    requires !i.HostSends? && !i.Destroyed?
    ensures Balanced(Handle(s, i), accepted, before)
  {
    hide Conserved, CallRejected, OnOpen, BindCommBus, OnWasmMessage;
    match i
    case Continuation(onThrows) => BindBalanced(s, accepted, before, onThrows);
    case TimerFires(t, onThrows, ctorThrows) => TimerBalanced(s, accepted, before, t, onThrows, ctorThrows);
    case SocketOpens(k, clock) =>
      var s1 := s.(sockets := s.sockets[k := Open]);
      QuietBalanced(s, s1, accepted, before);
      OpenBalanced(s1, accepted, before, clock);
    case WasmSends(msg) => WasmBalanced(s, accepted, before, msg);
    case CallRejects(q, reason) => RejectionBalanced(s, accepted, before, q, reason);
    case SocketChanges(_, _) => QuietBalanced(s, Handle(s, i), accepted, before);
    case SocketErrors(_) => QuietBalanced(s, LoseWs(s), accepted, before);
    case SocketCloses(_) => QuietBalanced(s, LoseWs(s), accepted, before);
    case TimePasses(_) => QuietBalanced(s, Handle(s, i), accepted, before);
  }

  lemma HandleBalanced(s: State, accepted: map<string, string>, before: seq<Settlement>, i: Input)
    requires Balanced(s, accepted, before) && Consistent(s) && Enabled(s, i)
    requires forall q :: q in accepted ==> Issued(q, s.requestSeq)
    ensures Balanced(Handle(s, i), AcceptedBy(s, i, accepted), before)
  {
    hide Balanced;
    if i.HostSends? {
      var next := RequestId(i.clock, s.requestSeq + 1);
      if next in accepted {
        NextIdIsFresh(next, s.requestSeq, i.clock);
      }
      HostBalanced(s, accepted, before, i.socket, i.msg, i.clock, i.onThrows);
    } else if i.Destroyed? {
      DestroyBalanced(s, accepted, before, i.order);
    } else {
      OtherBalanced(s, accepted, before, i);
    }
  }

  lemma ClearedSame(h: History, i: Input)
    requires Settling(h) && Enabled(h.relay, i)
    ensures var s := h.relay.(out := []);
            && Consistent(s) && Enabled(s, i) && Balanced(s, h.accepted, h.settled)
            && AcceptedBy(s, i, h.accepted) == AcceptedBy(h.relay, i, h.accepted)
  {
    var s := h.relay.(out := []);
    ConsistentFrame(h.relay, s);
    hide Consistent, Conserved, Issued, RequestId;
    assert h.settled + Settlements(s.out) == h.settled;
  }

  lemma StepBalanced(h: History, i: Input)
    requires Settling(h) && Enabled(h.relay, i)
    ensures Conserved(Step(h.relay, i).pending, AcceptedBy(h.relay, i, h.accepted),
                      h.settled + Settlements(Step(h.relay, i).out))
  {
    hide Handle, Conserved, Consistent, Issued, Offered, AcceptedBy, Settlements, Enabled;
    ClearedSame(h, i);
    HandleBalanced(h.relay.(out := []), h.accepted, h.settled, i);
  }

  lemma RejectAllKeepsSequence(s: State, order: seq<string>)
    requires forall q :: q in order ==> q in s.pending
    ensures Destroy(s, order).requestSeq == s.requestSeq && Destroy(s, order).dedup == s.dedup
  {
    RejectAllEffect(s, order);
  }

  lemma CommandSequence(s: State, cmd: Json, clock: int, onThrows: bool)
    requires cmd.Tag() == Some("cmd")
    ensures var s', offered := OnHostCommand(s, cmd, clock, onThrows), Offered(s, HostSends(0, cmd, clock, onThrows));
            && s'.requestSeq == s.requestSeq + (if offered.Some? then 1 else 0)
            && s'.dedup == if offered.Some? then D.Mark(s.dedup, offered.value) else s.dedup
  {
    hide RequestId, Envelope, AckErr, AckDuplicate, D.Mark, D.Has;
  }

  lemma HostSequence(s: State, k: SocketId, msg: Json, clock: int, onThrows: bool)
    ensures var s', offered := OnHostMessage(s, msg, clock, onThrows), Offered(s, HostSends(k, msg, clock, onThrows));
            && s.requestSeq <= s'.requestSeq
            && (offered.Some? ==> s'.requestSeq == s.requestSeq + 1)
            && s'.dedup == if offered.Some? then D.Mark(s.dedup, offered.value) else s.dedup
  {
    hide RequestId, Envelope, PongFrame, OnHostCommand, D.Mark, D.Has;
    if msg.Tag() == Some("cmd") { CommandSequence(s, msg, clock, onThrows); }
  }

  lemma TimerSequence(s: State, i: Input)
    requires i.TimerFires? && Enabled(s, i)
    ensures Step(s, i).requestSeq == s.requestSeq && Step(s, i).dedup == s.dedup
  {
  }

  lemma WasmSequence(s: State, i: Input)
    requires i.WasmSends? && Enabled(s, i)
    ensures Step(s, i).requestSeq == s.requestSeq && Step(s, i).dedup == s.dedup
  {
  }

  /** Sequence numbers and the ring move only when a command or an event is taken. */
  lemma StepSequence(s: State, i: Input)
    requires Enabled(s, i)
    ensures s.requestSeq <= Step(s, i).requestSeq
    ensures Offered(s, i).Some? ==> s.requestSeq + 1 == Step(s, i).requestSeq
    ensures Step(s, i).dedup == if Offered(s, i).Some? then D.Mark(s.dedup, Offered(s, i).value) else s.dedup
  {
    match i
    case Destroyed(order) => RejectAllKeepsSequence(s.(out := []), order);
    case HostSends(k, msg, clock, onThrows) => HostSequence(s.(out := []), k, msg, clock, onThrows);
    case TimerFires(_, _, _) => TimerSequence(s, i);
    case WasmSends(_) => WasmSequence(s, i);
    case _ =>
  }

  lemma StepSettling(h: History, i: Input)
    requires Settling(h) && Enabled(h.relay, i)
    ensures Settling(Advance(h, i))
  {
    StepConsistent(h.relay, i);
    StepBalanced(h, i);
    StepSequence(h.relay, i);
    var h' := Advance(h, i);
    forall q | q in h'.accepted ensures Issued(q, h'.relay.requestSeq) {
      if q in h.accepted {
        IssuedLater(q, h.relay.requestSeq, h'.relay.requestSeq);
      } else {
        assert q == RequestId(i.clock, h.relay.requestSeq + 1);
      }
    }
  }

  lemma InitIsEmpty(cfg: Config, capacity: nat, ctorThrows: bool, onThrows: bool)
    ensures var s := Init(Fresh(cfg, capacity), ctorThrows, onThrows);
            s.pending == map[] && s.requestSeq == 0 && s.dedup == D.Ring([], capacity)
  {
  }

  lemma InitialSettling(h: History, cfg: Config, capacity: nat)
    requires Initial(h, cfg, capacity)
    ensures Settling(h) && NeverStranded(h.relay) && h.relay.dedup == D.Ring([], capacity)
  {
    var ctorThrows, onThrows :| h == History(Init(Fresh(cfg, capacity), ctorThrows, onThrows).(out := []), map[], [], [], []);
    var s := Init(Fresh(cfg, capacity), ctorThrows, onThrows);
    InitNeverStranded(cfg, capacity, ctorThrows, onThrows);
    InitIsEmpty(cfg, capacity, ctorThrows, onThrows);
    ConsistentFrame(s, h.relay);
    ConnectionFrame(s, h.relay);
  }

  lemma {:induction false} RunSettling(run: seq<History>, inputs: seq<Input>, cfg: Config, capacity: nat, k: nat)
    requires IsRun(run, inputs, cfg, capacity) && k < |run|
    ensures Settling(run[k])
  {
    if k == 0 {
      InitialSettling(run[0], cfg, capacity);
    } else {
      RunSettling(run, inputs, cfg, capacity, k - 1);
      StepSettling(run[k - 1], inputs[k - 1]);
    }
  }

  function SettledRequests(settled: seq<Settlement>): set<string> {
    set k | 0 <= k < |settled| :: settled[k].requestId
  }

  lemma {:induction false} SettledCount(settled: seq<Settlement>)
    requires DistinctRequests(settled)
    ensures |SettledRequests(settled)| == |settled|
  {
    if settled != [] {
      var rest := settled[..|settled| - 1];
      var q := settled[|settled| - 1].requestId;
      SettledCount(rest);
      assert SettledRequests(settled) == SettledRequests(rest) + {q};
      assert q !in SettledRequests(rest);
    }
  }

  /**
   * In every state of every run, `destroy` included: each accepted command is pending with its one
   * live timer, or was answered exactly once, and the counts add up.
   */
  lemma ExactlyOnceSettlement(run: seq<History>, inputs: seq<Input>, cfg: Config, capacity: nat, k: nat)
    requires IsRun(run, inputs, cfg, capacity) && k < |run|
    ensures var h := run[k];
            && h.accepted.Keys == h.relay.pending.Keys + SettledRequests(h.settled)
            && h.relay.pending.Keys !! SettledRequests(h.settled)
            && |h.accepted| == |h.relay.pending| + |h.settled|
    ensures var h := run[k];
            forall q :: q in h.relay.pending <==>
              exists t, c :: Live(h.relay, t, RequestTimeout(q, c))
    ensures var h := run[k];
            forall j :: 0 <= j < |h.settled| ==>
              Answers(h.settled[j].frame, h.accepted[h.settled[j].requestId])
  {
    hide IsRun, Issued;
    RunSettling(run, inputs, cfg, capacity, k);
    var h := run[k];
    SettledCount(h.settled);
    forall q ensures q in SettledRequests(h.settled) <==> IsSettled(h.settled, q) {}
    assert |h.accepted| == |h.accepted.Keys| && |h.relay.pending| == |h.relay.pending.Keys|;
    forall q ensures q in h.relay.pending <==> exists t, c :: Live(h.relay, t, RequestTimeout(q, c)) {
      if q in h.relay.pending { assert HasTimer(h.relay, q); }
      if t, c :| Live(h.relay, t, RequestTimeout(q, c)) { assert HasRequest(h.relay, t); }
    }
  }

  /** Up to `destroy`, every state of every run can get back to an open socket and a bound bus. */
  lemma {:induction false} RunNeverStranded(run: seq<History>, inputs: seq<Input>, cfg: Config, capacity: nat, k: nat)
    requires IsRun(run, inputs, cfg, capacity) && k < |run|
    requires forall j :: 0 <= j < k ==> !inputs[j].Destroyed?
    ensures NeverStranded(run[k].relay)
  {
    if k == 0 {
      InitialSettling(run[0], cfg, capacity);
    } else {
      RunNeverStranded(run, inputs, cfg, capacity, k - 1);
      RunSettling(run, inputs, cfg, capacity, k - 1);
      StepNeverStranded(run[k - 1].relay, inputs[k - 1]);
    }
  }
}
