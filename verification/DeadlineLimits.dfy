/** Where the timeout ordering starts in a run of the whole system, and where it ends. */
module DeadlineLimits {
  import opened Base
  import opened Json
  import opened Wire
  import opened RequestIds
  import opened Deadline
  import Sys = System
  import SS = SystemSoundness
  import SR = SystemReadiness
  import Hub
  import HI = HubInvariants
  import R = Relay
  import RI = RelayInvariants
  import RH = RelayHistory
  import D = Dedup

  // ---- From the system ----

  /** The part of the system around one connection, with the times its frames were sent. */
  function View(s: Sys.State, c: Hub.ClientId, down: seq<Timed>, up: seq<Timed>, d1: nat, d2: nat): State
    requires c in s.conns && s.conns[c].link.relay in s.relays
  {
    State(s.host, s.relays[s.conns[c].link.relay].relay, s.conns[c].link.socket, down, up, d1, d2)
  }

  predicate SentAt(queue: seq<Json>, timed: seq<Timed>) {
    |timed| == |queue| && forall j :: 0 <= j < |queue| ==> timed[j].frame == queue[j]
  }

  lemma OfferReaches(h: Hub.State, n: Hub.CallId, c: Hub.ClientId)
    requires n < |h.calls| && h.calls[n].phase.Inserted? && c in Hub.Targets(h) && Hub.Accepts(h, c)
    ensures c in h.chans
    ensures var h' := Hub.Offer(h, n);
            && n < |h'.calls| && h'.calls[n] == h.calls[n].(phase := Hub.Waiting, deadline := h.now + h.calls[n].timeout)
            && h'.now == h.now && c in h'.chans && h'.chans[c].queue == h.chans[c].queue + [Hub.CmdFrame(h.calls[n])]
  {
    HI.OfferedQueues(h, Hub.Targets(h), Hub.CmdFrame(h.calls[n]));
    HI.TargetsMeaning(h);
    hide Hub.CmdFrame, Hub.Targets, Hub.OfferTo, Hub.AnyReady;
  }

  lemma SameCommand(c: Hub.Call)
    ensures Hub.CmdFrame(c.(phase := Hub.Waiting, deadline := c.deadline)) == Hub.CmdFrame(c)
    ensures forall d: nat :: Hub.CmdFrame(c.(phase := Hub.Waiting, deadline := d)) == Hub.CmdFrame(c)
  {
  }

  /**
   * In any run of the system: offering a command to a client whose relay is not destroyed and sends
   * over that client's open socket starts a timeout ordering, when the clocks agree and the delays
   * and the relay's timeout add up to less than the host's.
   */
  lemma OfferIsSent(run: seq<Sys.State>, inputs: seq<Sys.Input>, k: nat, n: Hub.CallId, c: Hub.ClientId,
                    down: seq<Timed>, up: seq<Timed>, d1: nat, d2: nat)
    requires Sys.IsRun(run, inputs) && k < |inputs| && inputs[k] == Sys.HostDoes(Hub.DoOffer(n))
    requires var s := run[k];
             && c in s.conns && c in Hub.Targets(s.host.hub) && Hub.Accepts(s.host.hub, c)
             && (forall j :: 0 <= j < k ==> !SR.Destroys(inputs[j], s.conns[c].link.relay))
    requires var t := run[k + 1];
             && c in t.conns && t.conns[c].link.relay in t.relays && c in t.host.hub.chans
             && var relay := t.relays[t.conns[c].link.relay].relay;
             && Holds(relay, t.conns[c].link.socket) && relay.now == t.host.hub.now
             && SentAt(t.host.hub.chans[c].queue, down) && (down != [] ==> down[|down| - 1].at == relay.now)
             && n < |t.host.hub.calls| && d1 + relay.cfg.requestTimeoutMs + d2 < t.host.hub.calls[n].timeout
    ensures Sent(View(run[k + 1], c, down, up, d1, d2), n)
  {
    hide Sent, HI.WaitersExact, RI.Consistent, RI.NeverStranded, SentAt, Holds, Sys.IsRun, SR.Destroys, Hub.Offer, Hub.CmdFrame,
      Hub.Targets, Hub.Accepts;
    RunLength(run, inputs);
    var s, t := run[k], run[k + 1];
    var r := s.conns[c].link.relay;
    SteadyAfter(run, inputs, k, c);
    OfferedAfter(run, inputs, k, n, c);
    OfferReaches(s.host.hub, n, c);
    SentView(s.host.hub, View(t, c, down, up, d1, d2), n, c);
  }

  /** The run's invariants, around one connection. */
  lemma SteadyAfter(run: seq<Sys.State>, inputs: seq<Sys.Input>, k: nat, c: Hub.ClientId)
    requires Sys.IsRun(run, inputs) && k < |inputs| && c in run[k].conns
    requires inputs[k].HostDoes? && forall j :: 0 <= j < k ==> !SR.Destroys(inputs[j], run[k].conns[c].link.relay)
    ensures var r := run[k].conns[c].link.relay;
            r in run[k].relays && HI.WaitersExact(run[k + 1].host)
            && RI.Consistent(run[k].relays[r].relay) && RI.NeverStranded(run[k].relays[r].relay)
  {
    hide Sys.IsRun, SS.Sound, SR.Agreed, HI.WaitersExact, RI.Consistent, RI.NeverStranded, SR.Destroys;
    RunLength(run, inputs);
    SS.RunSound(run, inputs, k);
    SS.RunSound(run, inputs, k + 1);
    SR.RunAgreed(run, inputs, k);
    SR.RunKeys(run, inputs, k);
    var r := run[k].conns[c].link.relay;
    Known(run[k], c);
    SR.RunBus(run, inputs, k, r);
    Steadied(run[k], r);
    Exact(run[k + 1]);
  }

  lemma RunLength(run: seq<Sys.State>, inputs: seq<Sys.Input>)
    requires Sys.IsRun(run, inputs)
    ensures |run| == |inputs| + 1
  {
    hide Sys.Step, Sys.Enabled, Sys.Initial;
  }

  lemma Exact(s: Sys.State)
    requires SS.Sound(s)
    ensures HI.WaitersExact(s.host)
  {
    hide HI.WaitersExact, RH.Settling;
  }

  lemma OfferedAfter(run: seq<Sys.State>, inputs: seq<Sys.Input>, k: nat, n: Hub.CallId, c: Hub.ClientId)
    requires Sys.IsRun(run, inputs) && k < |inputs| && inputs[k] == Sys.HostDoes(Hub.DoOffer(n))
    ensures var s, t := run[k], run[k + 1];
            && n < |s.host.hub.calls| && s.host.hub.calls[n].phase.Inserted?
            && t.host.hub == Hub.Offer(s.host.hub, n) && t.relays == s.relays && t.conns == s.conns
  {
    hide Sys.Step, Sys.Enabled, Hub.Offer, Sys.Initial;
    OfferStep(run[k], n);
  }

  lemma SentView(h: Hub.State, s: State, n: Hub.CallId, c: Hub.ClientId)
    requires n < |h.calls| && h.calls[n].phase.Inserted? && n < |s.host.hub.calls|
    requires s.host.hub.calls[n] == h.calls[n].(phase := Hub.Waiting, deadline := h.now + h.calls[n].timeout)
    requires s.host.hub.now == h.now
    requires c in h.chans && SentAt(h.chans[c].queue + [Hub.CmdFrame(h.calls[n])], s.down)
    requires s.down != [] ==> s.down[|s.down| - 1].at == s.relay.now
    requires HI.WaitersExact(s.host) && RI.Consistent(s.relay) && RI.NeverStranded(s.relay)
    requires Holds(s.relay, s.socket) && s.relay.now == s.host.hub.now
    requires s.d1 + s.relay.cfg.requestTimeoutMs + s.d2 < s.host.hub.calls[n].timeout
    ensures Sent(s, n)
  {
    SameCommand(h.calls[n]);
    hide HI.WaitersExact, RI.Consistent, RI.NeverStranded, Hub.CmdFrame;
    assert s.down[|s.down| - 1].frame == (h.chans[c].queue + [Hub.CmdFrame(h.calls[n])])[|s.down| - 1];
  }

  lemma Known(s: Sys.State, c: Hub.ClientId)
    requires SR.Agreed(s) && c in s.conns
    ensures s.conns[c].link.relay in s.relays
  {
    hide SR.RelaysAlive, SR.LinkAgreed, SR.LinksOk;
    assert SR.ConnAgreed(s, c);
  }

  lemma OfferStep(s: Sys.State, n: Hub.CallId)
    requires Sys.Enabled(s, Sys.HostDoes(Hub.DoOffer(n))) && s.relays.Keys == s.buses.Keys
    ensures n < |s.host.hub.calls| && s.host.hub.calls[n].phase.Inserted?
    ensures var t := Sys.Step(s, Sys.HostDoes(Hub.DoOffer(n)));
            t.host.hub == Hub.Offer(s.host.hub, n) && t.relays == s.relays && t.conns == s.conns
  {
    hide Hub.Offer;
  }

  lemma Steadied(t: Sys.State, r: Sys.RelayId)
    requires SS.Sound(t) && SR.Agreed(t) && r in t.relays && t.relays[r].relay.commBus
    ensures HI.WaitersExact(t.host) && RI.Consistent(t.relays[r].relay) && RI.NeverStranded(t.relays[r].relay)
  {
    hide HI.WaitersExact, RI.Consistent, RI.NeverStranded, SR.LinkAgreed, SR.LinksOk, RH.Settling;
  }

  // ---- A late close of another socket ----

  /** A relay that has reconnected: socket 0 is on its way out, socket 1 is in use. */
  function Reconnected(): R.State {
    R.State(R.Config(None, None, None, None, None, 1, 1, 100, 100), true, true, None, Some(1), None, map[], 0,
            D.Ring([], 8), 1, map[], 0, [R.Closing, R.Open], 0, [])
  }

  function Waiting(): Hub.Call {
    Hub.Call("x", None, Null, 3, 3, Hub.Waiting, Hub.Empty)
  }

  function Start(): State {
    State(
      HI.History(
        Hub.State(2, {}, map[1 := Hub.Client(None, 0, true)], map[1 := Hub.Chan([], true)], true,
                  map["x" := 0], [Waiting()], map[], 0),
        [[]]),
      Reconnected(), 1, [Timed(Hub.CmdFrame(Waiting()), 0)], [], 0, 0)
  }

  lemma StartIsSent()
    ensures Sent(Start(), 0)
  {
    var s := Start();
    assert RI.Consistent(s.relay) && RI.NeverStranded(s.relay);
    assert HI.SenderPlaced(s.host.hub, 0, []) && HI.EndedWell(s.host.hub, 0, []);
    assert HI.WaitersExact(s.host);
    hide Hub.CmdFrame, RI.Consistent, RI.NeverStranded, HI.WaitersExact;
  }

  /** The close event of socket 0 arrives: the relay forgets socket 1. */
  function Lost(): R.State {
    Reconnected().(ws := None, wsRetryTimerId := Some(0), timers := map[0 := R.Timer(R.Reconnect, 100)], nextTimer := 1)
  }

  lemma CloseLoses()
    ensures R.Step(Reconnected(), R.SocketCloses(0)) == Lost()
  {
  }

  /** The command is accepted under request id q, with a timer due at 1. */
  function Taken(q: string): R.State {
    Lost().(pending := map[q := R.Pending("x", 1)], requestSeq := 1, dedup := D.Ring(["x"], 8),
            timers := map[0 := R.Timer(R.Reconnect, 100), 1 := R.Timer(R.RequestTimeout(q, "x"), 1)], nextTimer := 2,
            out := [R.Call(R.Envelope(q, Hub.CmdFrame(Waiting())))])
  }

  lemma CommandTaken()
    ensures R.Step(Lost(), R.HostSends(1, Hub.CmdFrame(Waiting()), 0, false)) == Taken(RequestId(0, 1))
  {
    CommandFrame(Waiting());
    hide RequestId, Hub.CmdFrame, R.Envelope;
    assert D.Mark(D.Ring([], 8), "x") == D.Ring(["x"], 8);
  }

  /** The timer fires a moment later, and its ack goes nowhere. */
  lemma TimeoutUnheard(q: string)
    ensures var t := Taken(q).(now := 1);
            && R.Enabled(t, R.TimerFires(1, false, false)) && KeepsSocket(R.TimerFires(1, false, false), 1)
            && var t' := R.Step(t, R.TimerFires(1, false, false));
            t'.now == 1 && Sys.FramesVia(t'.out, 1) == [] && t'.timers == map[0 := R.Timer(R.Reconnect, 100)]
  {
    hide R.AckErr;
    var t' := R.Step(Taken(q).(now := 1), R.TimerFires(1, false, false));
    assert t'.out[..|t'.out| - 1] == [];
  }

  /** The states of the run, step by step. */
  function Stage(k: nat): State {
    var s, q := Start(), RequestId(0, 1);
    if k == 0 then s
    else if k == 1 then s.(relay := Lost())
    else if k == 2 then s.(relay := Taken(q), down := [])
    else if k == 3 then Later(s.(relay := Taken(q), down := []), 1)
    else if k == 4 then Later(s.(relay := TimedOut(q), down := []), 1)
    else if k == 5 then Later(s.(relay := TimedOut(q), down := []), 3)
    else
      var t := Later(s.(relay := TimedOut(q), down := []), 3);
      t.(host := HI.Advance(t.host, Hub.DoResolve(0)))
  }

  function TimedOut(q: string): R.State {
    R.Step(Taken(q).(now := 1), R.TimerFires(1, false, false))
  }

  function Later(s: State, now: nat): State {
    s.(relay := s.relay.(now := now), host := s.host.(hub := s.host.hub.(now := now)))
  }

  function Move(k: nat): Input {
    if k == 0 then RelayDoes(R.SocketCloses(0))
    else if k == 1 then Delivers(0, false)
    else if k == 2 then TimePasses(1)
    else if k == 3 then RelayDoes(R.TimerFires(1, false, false))
    else if k == 4 then TimePasses(2)
    else HubDoes(Hub.DoResolve(0))
  }

  lemma FirstMoves(k: nat)
    requires k <= 1
    ensures Possible(Stage(k), Move(k)) && Stage(k + 1) == Step(Stage(k), Move(k))
  {
    CloseLoses();
    CommandTaken();
    hide RequestId, Hub.CmdFrame, R.Envelope, R.Step;
  }

  lemma TimerMove()
    ensures Possible(Stage(3), Move(3)) && Stage(4) == Step(Stage(3), Move(3)) && Stage(4).relay.now == 1
    ensures Stage(4).relay.timers == map[0 := R.Timer(R.Reconnect, 100)]
  {
    var q := RequestId(0, 1);
    TimeoutUnheard(q);
    hide RequestId, Hub.CmdFrame, R.Envelope, R.Step;
  }

  /** Time passes up to the next timer. */
  lemma Wait(s: State, ms: nat, now: nat)
    requires now == s.relay.now + ms == s.host.hub.now + ms && s.down == [] && s.up == [] && s.host.hub.inHand == map[]
    requires forall t :: t in s.relay.timers ==> now <= s.relay.timers[t].due
    ensures Possible(s, TimePasses(ms)) && Later(s, now) == Step(s, TimePasses(ms))
  {
  }

  lemma TimeMoves(k: nat)
    requires k == 2 || k == 4
    ensures Possible(Stage(k), Move(k)) && Stage(k + 1) == Step(Stage(k), Move(k))
  {
    TimerMove();
    hide RequestId, Hub.CmdFrame, R.Envelope, Step, Possible, TimedOut;
    if k == 2 { Wait(Stage(2), 1, 1); } else { Wait(Stage(4), 2, 3); }
  }

  lemma LastMove()
    ensures Possible(Stage(5), Move(5)) && Stage(6) == Step(Stage(5), Move(5))
    ensures var h := Stage(6).host.hub; |h.calls| == 1 && h.calls[0].phase == Hub.Resolved(Hub.TIMED_OUT)
  {
    hide RequestId, Hub.CmdFrame, TimedOut, Taken;
  }

  lemma StaysOpen(k: nat)
    requires k <= 6
    ensures R.IsOpen(Stage(k).relay, 1) && Stage(k).socket == 1
  {
    TimedOutSockets(RequestId(0, 1));
    hide RequestId, Hub.CmdFrame, R.Envelope, TimedOut, HI.Advance;
  }

  lemma TimedOutSockets(q: string)
    ensures TimedOut(q).sockets == [R.Closing, R.Open]
  {
    hide R.AckErr;
  }

  /**
   * The host gives up on a command although its relay's socket is open throughout: the close event
   * of an older socket makes the relay forget the one in use, and its verdict is dropped.
   */
  lemma LateCloseTimesOut() returns (run: seq<State>, inputs: seq<Input>)
    ensures |run| == |inputs| + 1 && Sent(run[0], 0)
    ensures forall k :: 0 <= k < |inputs| ==> Possible(run[k], inputs[k]) && run[k + 1] == Step(run[k], inputs[k])
    ensures forall k :: 0 <= k < |inputs| && inputs[k].RelayDoes? && !KeepsSocket(inputs[k].relay, run[k].socket) ==>
              inputs[k] == RelayDoes(R.SocketCloses(0)) && run[k].socket == 1
    ensures forall k :: 0 <= k < |run| ==> R.IsOpen(run[k].relay, 1)
    ensures var h := run[|inputs|].host.hub; |h.calls| == 1 && h.calls[0].phase == Hub.Resolved(Hub.TIMED_OUT)
  {
    StartIsSent();
    hide Stage, Step, Possible, Sent, R.IsOpen;
    run, inputs := seq(7, k requires 0 <= k < 7 => Stage(k)), seq(6, k requires 0 <= k < 6 => Move(k));
    forall k | 0 <= k < 6 ensures Possible(Stage(k), Move(k)) && Stage(k + 1) == Step(Stage(k), Move(k)) {
      if k <= 1 { FirstMoves(k); }
      if k == 2 || k == 4 { TimeMoves(k); }
      if k == 3 { TimerMove(); }
      if k == 5 { LastMove(); }
    }
    LastMove();
    forall k | 0 <= k < 7 ensures R.IsOpen(Stage(k).relay, 1) && Stage(k).socket == 1 { StaysOpen(k); }
    assert Stage(0) == Start() by { StageStarts(); }
  }

  lemma StageStarts()
    ensures Stage(0) == Start()
  {
  }
}
