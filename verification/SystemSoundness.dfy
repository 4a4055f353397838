/** End-to-end soundness: what `command` returns is what the handler returned for that command. */
module SystemSoundness {
  import opened Base
  import opened Json
  import opened Wire
  import opened RequestIds
  import opened System
  import Hub
  import HI = HubInvariants
  import Server
  import R = Relay
  import RI = RelayInvariants
  import RH = RelayHistory
  import RO = RelayOutputs
  import W = WasmBridge
  import D = Dedup

  // ---- What each message in flight says ----

  predicate IsCall(s: State, n: nat, id: string) {
    n < |s.host.hub.calls| && s.host.hub.calls[n].id == id
  }

  /** The module answered this request, which carried the n-th command, like this. */
  predicate Answered(s: State, r: RelayId, q: string, n: nat, answer: W.Answer) {
    n < |s.host.hub.calls| &&
    Handled(r, q, s.host.hub.calls[n].name, s.host.hub.calls[n].payload, answer) in s.handled
  }

  /** The request id was given out for the n-th command. */
  predicate IssuedFor(s: State, r: RelayId, q: string, n: nat) {
    r in s.relays && q in s.relays[r].accepted && IsCall(s, n, s.relays[r].accepted[q])
  }

  /** The module's answer to a request issued for the n-th command. */
  ghost predicate AnswerTo(s: State, n: nat, answer: W.Answer) {
    exists r: RelayId, q: string :: IssuedFor(s, r, q, n) && Answered(s, r, q, n, answer)
  }

  /** Some relay was sent this command id more than once. */
  ghost predicate Repeated(s: State, id: string) {
    exists r: RelayId :: s.reached[Arrival(r, id)] >= 2
  }

  /**
   * An ack flagged as a duplicate is for an id that some relay got twice; any other successful ack
   * carries the module's answer to a request for its own command.
   */
  ghost predicate Genuine(s: State, a: AckPayload) {
    && (a.IsDuplicate() ==> Repeated(s, a.id))
    && (a.ok && !a.IsDuplicate() ==> exists n: nat :: IsCall(s, n, a.id) && AnswerTo(s, n, W.Ok(a.Answer())))
  }

  ghost predicate UpOk(s: State, frame: Json) {
    match Parse(frame)
    case Some(Ack(a)) => Genuine(s, a)
    case _ => true
  }

  ghost predicate IsEvent(frame: Json) {
    exists e :: frame == Print(Event(e))
  }

  ghost predicate IsProbe(frame: Json) {
    exists ts :: frame == Print(Ping(ts)) || frame == Print(Pong(ts))
  }

  ghost predicate IsCommand(s: State, frame: Json) {
    exists n: nat :: n < |s.host.hub.calls| && frame == Hub.CmdFrame(s.host.hub.calls[n])
  }

  /** All the host ever sends: commands it started, events, pings and pongs. */
  ghost predicate DownOk(s: State, frame: Json) {
    IsCommand(s, frame) || IsEvent(frame) || IsProbe(frame)
  }

  ghost predicate CommandFor(s: State, r: RelayId, q: string, msg: Json) {
    exists n: nat ::
      n < |s.host.hub.calls| && msg == Hub.CmdFrame(s.host.hub.calls[n]) && IssuedFor(s, r, q, n)
  }

  ghost predicate Wraps(s: State, r: RelayId, q: string, msg: Json) {
    IsEvent(msg) || CommandFor(s, r, q, msg)
  }

  /** An envelope on the CommBus holds an event or the command its request id was issued for. */
  ghost predicate CallOk(s: State, r: RelayId, env: Json) {
    exists q: string, msg: Json :: env == R.Envelope(q, msg) && Wraps(s, r, q, msg)
  }

  ghost predicate AnswerFor(s: State, r: RelayId, q: string, answer: W.Answer) {
    exists n: nat :: IssuedFor(s, r, q, n) && Answered(s, r, q, n, answer)
  }

  /** A message from the module is an event or the handler's answer to the request it names. */
  ghost predicate ReplyOk(s: State, r: RelayId, msg: Json) {
    || IsEvent(msg)
    || (exists q: string, answer: W.Answer :: msg == W.Response(q, answer) && AnswerFor(s, r, q, answer))
  }

  // ---- These only become truer ----

  ghost predicate SameCalls(g: Hub.State, h: Hub.State) {
    && |g.calls| <= |h.calls|
    && (forall n: nat :: n < |g.calls| ==>
          h.calls[n].id == g.calls[n].id && h.calls[n].name == g.calls[n].name
          && h.calls[n].payload == g.calls[n].payload)
  }

  ghost predicate MoreAccepted(s: State, t: State) {
    forall r, q :: r in s.relays && q in s.relays[r].accepted ==>
      r in t.relays && q in t.relays[r].accepted && t.relays[r].accepted[q] == s.relays[r].accepted[q]
  }

  ghost predicate Extends(s: State, t: State) {
    && SameCalls(s.host.hub, t.host.hub)
    && s.handled <= t.handled && s.reached <= t.reached
    && MoreAccepted(s, t)
  }

  lemma GenuineLater(s: State, t: State, a: AckPayload)
    requires Extends(s, t) && Genuine(s, a)
    ensures Genuine(t, a)
  {
    if a.IsDuplicate() {
      var r: RelayId :| s.reached[Arrival(r, a.id)] >= 2;
      assert t.reached[Arrival(r, a.id)] >= 2;
    } else if a.ok {
      var n: nat :| IsCall(s, n, a.id) && AnswerTo(s, n, W.Ok(a.Answer()));
      AnswerLater(s, t, n, W.Ok(a.Answer()));
      assert IsCall(t, n, a.id);
    }
  }

  lemma AnswerLater(s: State, t: State, n: nat, answer: W.Answer)
    requires Extends(s, t) && AnswerTo(s, n, answer)
    ensures AnswerTo(t, n, answer)
  {
    var r: RelayId, q: string :| IssuedFor(s, r, q, n) && Answered(s, r, q, n, answer);
    assert IssuedFor(t, r, q, n) && Answered(t, r, q, n, answer);
  }

  lemma UpLater(s: State, t: State, frame: Json)
    requires Extends(s, t) && UpOk(s, frame)
    ensures UpOk(t, frame)
  {
    hide Parse, Extends, Genuine;
    match Parse(frame)
    case Some(Ack(a)) => GenuineLater(s, t, a);
    case _ =>
  }

  lemma SameFrame(g: Hub.Call, h: Hub.Call)
    requires g.id == h.id && g.name == h.name && g.payload == h.payload
    ensures Hub.CmdFrame(g) == Hub.CmdFrame(h)
  {
  }

  lemma DownLater(s: State, t: State, frame: Json)
    requires SameCalls(s.host.hub, t.host.hub) && DownOk(s, frame)
    ensures DownOk(t, frame)
  {
    if IsCommand(s, frame) {
      var n: nat :| n < |s.host.hub.calls| && frame == Hub.CmdFrame(s.host.hub.calls[n]);
      SameFrame(s.host.hub.calls[n], t.host.hub.calls[n]);
      hide Hub.CmdFrame;
      assert IsCommand(t, frame);
    }
  }

  lemma CallLater(s: State, t: State, r: RelayId, env: Json)
    requires Extends(s, t) && CallOk(s, r, env)
    ensures CallOk(t, r, env)
  {
    hide R.Envelope;
    var q: string, msg: Json :| env == R.Envelope(q, msg) && Wraps(s, r, q, msg);
    if CommandFor(s, r, q, msg) {
      var n: nat :| n < |s.host.hub.calls| && msg == Hub.CmdFrame(s.host.hub.calls[n]) && IssuedFor(s, r, q, n);
      SameFrame(s.host.hub.calls[n], t.host.hub.calls[n]);
      hide Hub.CmdFrame;
      assert IssuedFor(t, r, q, n);
      assert CommandFor(t, r, q, msg);
    }
    assert Wraps(t, r, q, msg);
  }

  lemma ReplyLater(s: State, t: State, r: RelayId, msg: Json)
    requires Extends(s, t) && ReplyOk(s, r, msg)
    ensures ReplyOk(t, r, msg)
  {
    hide W.Response;
    if !IsEvent(msg) {
      var q: string, answer: W.Answer :| msg == W.Response(q, answer) && AnswerFor(s, r, q, answer);
      var n: nat :| IssuedFor(s, r, q, n) && Answered(s, r, q, n, answer);
      assert IssuedFor(t, r, q, n) && Answered(t, r, q, n, answer);
      assert AnswerFor(t, r, q, answer);
    }
  }

  // ---- The invariant ----

  ghost predicate SeenSound(s: State) {
    forall n: nat, j: nat :: n < |s.host.seen| && j < |s.host.seen[n]| ==>
      IsCall(s, n, s.host.seen[n][j].id) && Genuine(s, s.host.seen[n][j])
  }

  ghost predicate DownSound(s: State) {
    forall c, j: nat :: c in s.host.hub.chans && j < |s.host.hub.chans[c].queue| ==>
      DownOk(s, s.host.hub.chans[c].queue[j])
  }

  ghost predicate CallsSound(s: State) {
    forall r, env :: r in s.buses && env in s.buses[r].toWasm ==> CallOk(s, r, env)
  }

  ghost predicate RepliesSound(s: State) {
    forall r, msg :: r in s.buses && msg in s.buses[r].fromWasm ==> ReplyOk(s, r, msg)
  }

  ghost predicate UpSound(s: State) {
    forall l, j: nat :: l in s.ups && j < |s.ups[l]| ==> UpOk(s, s.ups[l][j])
  }

  /** Whatever a relay remembers has reached it. */
  ghost predicate RingSound(s: State) {
    forall r, id :: r in s.relays && id in s.relays[r].relay.dedup.order ==> s.reached[Arrival(r, id)] >= 1
  }

  ghost predicate RelaysSound(s: State) {
    && s.relays.Keys == s.buses.Keys
    && (forall r :: r in s.relays ==> RH.Settling(s.relays[r]))
    && (forall c :: c in s.conns ==> s.conns[c].link.relay in s.relays)
  }

  ghost predicate Sound(s: State) {
    && HI.WaitersExact(s.host)
    && RelaysSound(s)
    && SeenSound(s) && DownSound(s) && CallsSound(s) && RepliesSound(s) && UpSound(s) && RingSound(s)
  }

  lemma SeenFrame(s: State, t: State)
    requires SeenSound(s) && Extends(s, t)
    requires |s.host.seen| <= |t.host.seen|
    requires forall n: nat :: n < |t.host.seen| ==>
               if n < |s.host.seen| then t.host.seen[n] == s.host.seen[n] else t.host.seen[n] == []
    ensures SeenSound(t)
  {
    forall n: nat, j: nat | n < |t.host.seen| && j < |t.host.seen[n]|
      ensures IsCall(t, n, t.host.seen[n][j].id) && Genuine(t, t.host.seen[n][j])
    {
      hide Genuine;
      assert IsCall(s, n, s.host.seen[n][j].id) && Genuine(s, s.host.seen[n][j]);
      GenuineLater(s, t, s.host.seen[n][j]);
    }
  }

  lemma DownFrame(s: State, t: State)
    requires DownSound(s) && SameCalls(s.host.hub, t.host.hub)
    requires forall c, j: nat :: c in t.host.hub.chans && j < |t.host.hub.chans[c].queue| ==>
               DownOk(t, t.host.hub.chans[c].queue[j])
               || exists k: nat :: c in s.host.hub.chans && k < |s.host.hub.chans[c].queue|
                    && t.host.hub.chans[c].queue[j] == s.host.hub.chans[c].queue[k]
    ensures DownSound(t)
  {
    hide DownOk;
    forall c, j: nat | c in t.host.hub.chans && j < |t.host.hub.chans[c].queue|
      ensures DownOk(t, t.host.hub.chans[c].queue[j])
    {
      if !DownOk(t, t.host.hub.chans[c].queue[j]) {
        var k: nat :| c in s.host.hub.chans && k < |s.host.hub.chans[c].queue|
          && t.host.hub.chans[c].queue[j] == s.host.hub.chans[c].queue[k];
        DownLater(s, t, s.host.hub.chans[c].queue[k]);
      }
    }
  }

  lemma BusFrame(s: State, t: State)
    requires CallsSound(s) && RepliesSound(s) && Extends(s, t) && t.buses.Keys == s.buses.Keys
    requires forall r, env :: r in t.buses && env in t.buses[r].toWasm ==> env in s.buses[r].toWasm || CallOk(t, r, env)
    requires forall r, msg :: r in t.buses && msg in t.buses[r].fromWasm ==> msg in s.buses[r].fromWasm || ReplyOk(t, r, msg)
    ensures CallsSound(t) && RepliesSound(t)
  {
    hide CallOk, ReplyOk, Extends;
    forall r, env | r in t.buses && env in t.buses[r].toWasm ensures CallOk(t, r, env) {
      if env in s.buses[r].toWasm { CallLater(s, t, r, env); }
    }
    forall r, msg | r in t.buses && msg in t.buses[r].fromWasm ensures ReplyOk(t, r, msg) {
      if msg in s.buses[r].fromWasm { ReplyLater(s, t, r, msg); }
    }
  }

  predicate OldFrame(s: State, l: Link, frame: Json) {
    l in s.ups && frame in s.ups[l]
  }

  lemma UpFrame(s: State, t: State)
    requires UpSound(s) && Extends(s, t)
    requires forall l, j: nat :: l in t.ups && j < |t.ups[l]| ==> UpOk(t, t.ups[l][j]) || OldFrame(s, l, t.ups[l][j])
    ensures UpSound(t)
  {
    hide UpOk, Extends;
    forall l, j: nat | l in t.ups && j < |t.ups[l]| ensures UpOk(t, t.ups[l][j]) {
      if !UpOk(t, t.ups[l][j]) {
        var k :| 0 <= k < |s.ups[l]| && t.ups[l][j] == s.ups[l][k];
        UpLater(s, t, s.ups[l][k]);
      }
    }
  }

  lemma RingFrame(s: State, t: State)
    requires RingSound(s) && s.reached <= t.reached
    requires forall r, id :: r in t.relays && id in t.relays[r].relay.dedup.order ==>
               (r in s.relays && id in s.relays[r].relay.dedup.order) || t.reached[Arrival(r, id)] >= 1
    ensures RingSound(t)
  {
  }

  // ---- Steps of the host ----

  /** What a host step does to calls, queues and seen acks, other than taking an ack. */
  lemma HubStepCalls(h: Hub.State, i: Hub.Input)
    requires Hub.Enabled(h, i)
    ensures SameCalls(h, Hub.Step(h, i))
  {
    if HI.Idle(i) {
      HI.IdleFrame(h, i);
      hide Hub.Step, Hub.Enabled;
    } else if i.DoOffer? {
      HI.OfferFrame(h, i.call);
      hide Hub.Offer;
    } else if i.DoBegin? {
      BeginCalls(h, i.id, i.cmdName, i.payload, i.timeout);
      hide Hub.Begin, Hub.Enabled;
    } else {
      hide Hub.Resolution, Hub.Begin;
    }
  }

  lemma BeginCalls(h: Hub.State, id: string, name: Option<string>, payload: Json, timeout: nat)
    ensures SameCalls(h, Hub.Begin(h, id, name, payload, timeout))
  {
  }

  lemma HostStepEffect(g: HI.History, i: Hub.Input)
    requires Hub.Enabled(g.hub, i) && !i.DoTake?
    ensures SameCalls(g.hub, HI.Advance(g, i).hub)
    ensures |g.seen| <= |HI.Advance(g, i).seen|
    ensures forall n: nat :: n < |HI.Advance(g, i).seen| ==>
              HI.Advance(g, i).seen[n] == if n < |g.seen| then g.seen[n] else []
  {
    hide Hub.Step, Hub.Enabled, SameCalls;
    HubStepCalls(g.hub, i);
  }

  /** Steps that offer a message to channels. */
  predicate Sends(i: Hub.Input) {
    i.DoSendTo? || i.DoEmit? || i.DoOffer?
  }

  /** The message such a step offers. */
  function SentFrame(h: Hub.State, i: Hub.Input): Json {
    match i
    case DoSendTo(_, msg) => msg
    case DoEmit(name, data) => Print(Event(EventPayload(name, data)))
    case DoOffer(n) => if n < |h.calls| then Hub.CmdFrame(h.calls[n]) else Null
    case _ => Null
  }

  ghost predicate QueuesGrow(g: Hub.State, h: Hub.State, frame: Json) {
    forall c :: c in h.chans ==>
      c in g.chans && (h.chans[c].queue == g.chans[c].queue || h.chans[c].queue == g.chans[c].queue + [frame])
  }

  ghost predicate QueuesShrink(g: Hub.State, h: Hub.State) {
    forall c :: c in h.chans ==>
      || h.chans[c].queue == []
      || (c in g.chans && (h.chans[c].queue == g.chans[c].queue
                           || (g.chans[c].queue != [] && h.chans[c].queue == g.chans[c].queue[1..])))
  }

  lemma HostQueues(h: Hub.State, i: Hub.Input)
    requires Hub.Enabled(h, i)
    ensures if Sends(i) then QueuesGrow(h, Hub.Step(h, i), SentFrame(h, i)) else QueuesShrink(h, Hub.Step(h, i))
  {
    hide Hub.CmdFrame, Hub.Targets, Hub.Accepts, Hub.Resolution, Print;
  }

  lemma GrownDown(s: State, t: State, frame: Json)
    requires DownSound(s) && SameCalls(s.host.hub, t.host.hub) && DownOk(t, frame)
    requires QueuesGrow(s.host.hub, t.host.hub, frame)
    ensures DownSound(t)
  {
    hide DownOk;
    var g, h := s.host.hub, t.host.hub;
    forall c, j: nat | c in h.chans && j < |h.chans[c].queue|
      ensures DownOk(t, h.chans[c].queue[j]) || exists k: nat ::
                c in g.chans && k < |g.chans[c].queue| && h.chans[c].queue[j] == g.chans[c].queue[k]
    {
      if j < |g.chans[c].queue| { assert h.chans[c].queue[j] == g.chans[c].queue[j]; }
    }
    DownFrame(s, t);
  }

  lemma ShrunkDown(s: State, t: State)
    requires DownSound(s) && SameCalls(s.host.hub, t.host.hub) && QueuesShrink(s.host.hub, t.host.hub)
    ensures DownSound(t)
  {
    hide DownOk;
    var g, h := s.host.hub, t.host.hub;
    forall c, j: nat | c in h.chans && j < |h.chans[c].queue|
      ensures exists k: nat :: c in g.chans && k < |g.chans[c].queue| && h.chans[c].queue[j] == g.chans[c].queue[k]
    {
      var k := if h.chans[c].queue == g.chans[c].queue then j else j + 1;
      assert h.chans[c].queue[j] == g.chans[c].queue[k];
    }
    DownFrame(s, t);
  }

  lemma HostStepSound(s: State, i: Hub.Input)
    requires Sound(s) && Hub.Enabled(s.host.hub, i) && !i.DoTake?
    requires Sends(i) ==> DownOk(s, SentFrame(s.host.hub, i))
    ensures Sound(HostStep(s, i)) && Extends(s, HostStep(s, i))
  {
    var t := HostStep(s, i);
    HI.StepExact(s.host, i);
    HostStepEffect(s.host, i);
    hide Hub.Step, Hub.Enabled, HI.WaitersExact, UpOk, CallOk, ReplyOk, Genuine, RH.Settling, SentFrame, HI.Advance;
    HostDown(s, i);
    SeenFrame(s, t);
    BusFrame(s, t);
    UpFrame(s, t);
    RingFrame(s, t);
  }

  lemma HostDown(s: State, i: Hub.Input)
    requires DownSound(s) && HI.WaitersExact(s.host) && Hub.Enabled(s.host.hub, i) && !i.DoTake?
    requires Sends(i) ==> DownOk(s, SentFrame(s.host.hub, i))
    ensures DownSound(HostStep(s, i))
  {
    var t := HostStep(s, i);
    HostStepEffect(s.host, i);
    HostQueues(s.host.hub, i);
    hide Hub.Step, Hub.Enabled, DownOk, SentFrame, HI.WaitersExact, QueuesGrow, QueuesShrink, DownSound, SameCalls;
    if Sends(i) {
      DownLater(s, t, SentFrame(s.host.hub, i));
      GrownDown(s, t, SentFrame(s.host.hub, i));
    } else {
      ShrunkDown(s, t);
    }
  }

  lemma TakeEffect(g: HI.History, ack: AckPayload)
    requires HI.WaitersExact(g)
    ensures var g' := HI.Advance(g, Hub.DoTake(ack));
            && g'.hub.calls == g.hub.calls && g'.hub.chans == g.hub.chans && |g'.seen| == |g.seen|
            && (forall n: nat :: n < |g.seen| ==>
                  g'.seen[n] == if g.hub.calls[n].id == ack.id then g.seen[n] + [ack] else g.seen[n])
  {
    hide HI.SenderPlaced, HI.EndedWell;
  }

  lemma TakeSound(s: State, ack: AckPayload)
    requires Sound(s) && Genuine(s, ack)
    ensures Sound(HostStep(s, Hub.DoTake(ack)))
  {
    hide HI.Advance, HI.WaitersExact, Genuine, UpOk, CallOk, ReplyOk, DownOk, RH.Settling, CallsSound, RepliesSound, UpSound, DownSound, RingSound;
    var t := HostStep(s, Hub.DoTake(ack));
    HI.StepExact(s.host, Hub.DoTake(ack));
    TakeEffect(s.host, ack);
    CallsMatch(s);
    forall n: nat, j: nat | n < |t.host.seen| && j < |t.host.seen[n]|
      ensures IsCall(t, n, t.host.seen[n][j].id) && Genuine(t, t.host.seen[n][j])
    {
      if j < |s.host.seen[n]| {
        assert IsCall(s, n, s.host.seen[n][j].id) && Genuine(s, s.host.seen[n][j]);
        GenuineLater(s, t, s.host.seen[n][j]);
      } else {
        GenuineLater(s, t, ack);
      }
    }
    DownFrame(s, t);
    BusFrame(s, t);
    UpFrame(s, t);
    RingFrame(s, t);
  }

  lemma CallsMatch(s: State)
    requires HI.WaitersExact(s.host)
    ensures |s.host.seen| == |s.host.hub.calls|
  {
    hide HI.SenderPlaced, HI.EndedWell;
  }

  // ---- Steps of a relay ----

  lemma {:induction false} FramesComeFromSends(out: seq<R.Out>, k: R.SocketId, j: nat)
    requires j < |FramesVia(out, k)|
    ensures exists m: nat :: m < |out| && out[m].Send? && out[m].via == Some(k) && out[m].frame == FramesVia(out, k)[j]
  {
    var rest := FramesVia(out[..|out| - 1], k);
    if j < |rest| {
      FramesComeFromSends(out[..|out| - 1], k, j);
      var m: nat :| m < |out| - 1 && out[m].Send? && out[m].via == Some(k) && out[m].frame == rest[j];
    } else {
      assert out[|out| - 1].Send?;
    }
  }

  lemma CmdFrameFields(c: Hub.Call)
    ensures Hub.CmdFrame(c).Tag() == Some("cmd") && Hub.CmdFrame(c).Get("id") == Some(Str(c.id))
  {
    assert Hub.CmdFrame(c).Get("t") == Some(Str("cmd"));
  }

  /** Of what the host sends, only commands are tagged as commands and only events as events. */
  lemma DownTags(s: State, frame: Json)
    requires DownOk(s, frame)
    ensures frame.Tag() == Some("cmd") ==> IsCommand(s, frame)
    ensures frame.Tag() == Some("event") ==> IsEvent(frame)
  {
    if IsCommand(s, frame) {
      var n: nat :| n < |s.host.hub.calls| && frame == Hub.CmdFrame(s.host.hub.calls[n]);
      CmdFrameFields(s.host.hub.calls[n]);
    }
  }

  lemma AcceptedGrows(h: RH.History, i: R.Input)
    requires RH.Settling(h) && R.Enabled(h.relay, i)
    ensures forall q :: q in h.accepted ==>
              q in RH.Advance(h, i).accepted && RH.Advance(h, i).accepted[q] == h.accepted[q]
  {
    hide R.Step, RH.Conserved, RI.Consistent, RH.Settlements, RH.Forwarded, R.Enabled, RequestId, RI.Issued;
    if RH.Offered(h.relay, i).Some? {
      var q := RequestId(i.clock, h.relay.requestSeq + 1);
      if q in h.accepted { RI.NextIdIsFresh(q, h.relay.requestSeq, i.clock); }
    }
  }

  lemma RelayStepFields(s: State, r: RelayId, i: R.Input)
    requires r in s.relays && r in s.buses && R.Enabled(s.relays[r].relay, i)
    ensures var t := RelayStep(s, r, i);
            && t.host == s.host && t.handled == s.handled && t.reached == s.reached
            && t.relays == s.relays[r := RH.Advance(s.relays[r], i)]
            && t.relays[r].relay == R.Step(s.relays[r].relay, i)
            && t.relays[r].accepted == RH.AcceptedBy(s.relays[r].relay, i, s.relays[r].accepted)
            && t.buses.Keys == s.buses.Keys
            && (forall k :: k in s.buses ==> t.buses[k].fromWasm == s.buses[k].fromWasm)
            && (forall k :: k in s.buses ==>
                  t.buses[k].toWasm == if k == r then s.buses[k].toWasm + CallsIn(t.relays[r].relay.out) else s.buses[k].toWasm)
            && t.conns == s.conns && t.ups == Carry(s, r, t.relays[r].relay.out, |t.relays[r].relay.sockets|)
  {
    hide R.Step, Carry, RH.AcceptedBy, RH.Settlements, RH.Forwarded, R.Enabled, CallsIn, RH.Offered;
  }

  lemma RelayExtends(s: State, r: RelayId, i: R.Input)
    requires RelaysSound(s) && r in s.relays && R.Enabled(s.relays[r].relay, i)
    ensures Extends(s, RelayStep(s, r, i))
  {
    hide RelayStep, R.Step, RH.Advance, R.Enabled, Carry, CallsIn, RH.Settling, RH.AcceptedBy;
    RelayStepFields(s, r, i);
    AcceptedGrows(s.relays[r], i);
  }

  lemma NewCallsOk(s: State, r: RelayId, i: R.Input)
    requires RelaysSound(s) && r in s.relays && R.Enabled(s.relays[r].relay, i)
    requires i.HostSends? ==> DownOk(s, i.msg)
    ensures forall env :: env in CallsIn(R.Step(s.relays[r].relay, i).out) ==> CallOk(RelayStep(s, r, i), r, env)
  {
    hide RelayStep, R.Step, R.Enabled, R.Envelope, RequestId, RH.Settling, IsEvent, DownOk, RH.Offered, RH.Advance;
    var t, relay := RelayStep(s, r, i), s.relays[r].relay;
    RO.StepCalls(relay, i);
    forall env | env in CallsIn(R.Step(relay, i).out) ensures CallOk(t, r, env) {
      var q := RequestId(i.clock, relay.requestSeq + 1);
      DownTags(s, i.msg);
      if i.msg.Tag() == Some("cmd") { NewCommandFor(s, r, i, q); }
      assert Wraps(t, r, q, i.msg);
    }
  }

  lemma OfferedIs(relay: R.State, i: R.Input, id: string, accepted: map<string, string>)
    requires i.HostSends? && i.msg.Get("id") == Some(Str(id)) && RH.Offered(relay, i).Some?
    ensures RH.AcceptedBy(relay, i, accepted) == accepted[RequestId(i.clock, relay.requestSeq + 1) := id]
  {
    hide RequestId, D.Has;
  }

  lemma NewCommandFor(s: State, r: RelayId, i: R.Input, q: string)
    requires RelaysSound(s) && r in s.relays && R.Enabled(s.relays[r].relay, i)
    requires i.HostSends? && IsCommand(s, i.msg) && q == RequestId(i.clock, s.relays[r].relay.requestSeq + 1)
    requires RH.Offered(s.relays[r].relay, i).Some?
    ensures CommandFor(RelayStep(s, r, i), r, q, i.msg)
  {
    hide RelayStep, R.Step, RH.Advance, Carry, CallsIn, R.Enabled, RequestId, Hub.CmdFrame, RH.Settling, RH.AcceptedBy;
    var t := RelayStep(s, r, i);
    RelayStepFields(s, r, i);
    var n: nat :| n < |s.host.hub.calls| && i.msg == Hub.CmdFrame(s.host.hub.calls[n]);
    var id := s.host.hub.calls[n].id;
    CmdFrameFields(s.host.hub.calls[n]);
    OfferedIs(s.relays[r].relay, i, id, s.relays[r].accepted);
    hide RH.Offered;
    assert IsCall(t, n, id);
    assert IssuedFor(t, r, q, n);
  }

  /** A reply that names a request is a handler's answer to it. */
  lemma ReplyAnswers(s: State, r: RelayId, msg: Json, q: string) returns (answer: W.Answer)
    requires ReplyOk(s, r, msg) && msg.Get("requestId") == Some(Str(q))
    ensures msg == W.Response(q, answer) && AnswerFor(s, r, q, answer)
  {
    if IsEvent(msg) { EventHasNoRequest(msg); }
    hide IsEvent, AnswerFor, W.Response;
    var q0: string, a0: W.Answer :| msg == W.Response(q0, a0) && AnswerFor(s, r, q0, a0);
    W.ResponseFields(q0, a0);
    answer := a0;
  }

  lemma AnswerFrame(s: State, r: RelayId, q: string, answer: W.Answer)
    requires r in s.relays && RH.Settling(s.relays[r]) && q in s.relays[r].relay.pending
    requires AnswerFor(s, r, q, answer) && answer.Ok?
    ensures UpOk(s, R.AckOk(s.relays[r].relay.pending[q].cmdId, Some(answer.value)))
  {
    PendingAccepted(s.relays[r], q);
    var id := s.relays[r].relay.pending[q].cmdId;
    hide RH.Settling, Parse, R.AckOk;
    var n: nat :| IssuedFor(s, r, q, n) && Answered(s, r, q, n, answer);
    W.AnswerReachesHost(id, answer);
    assert IsCall(s, n, id) && AnswerTo(s, n, answer);
    assert Genuine(s, Parse(R.AckOk(id, Some(answer.value))).value.ack);
  }

  /** The ack a relay makes of the module's answer is genuine. */
  lemma AnswerGenuine(s: State, r: RelayId, i: R.Input, frame: Json)
    requires r in s.relays && RH.Settling(s.relays[r]) && i.WasmSends? && ReplyOk(s, r, i.msg)
    requires RO.AnsweredOk(s.relays[r].relay, i, frame)
    ensures UpOk(s, frame)
  {
    hide RH.Settling, ReplyOk, UpOk, AnswerFor, W.Response, R.AckOk;
    var q := i.msg.Get("requestId").value.s;
    var answer := ReplyAnswers(s, r, i.msg, q);
    W.ResponseFields(q, answer);
    AnswerFrame(s, r, q, answer);
  }

  lemma PendingAccepted(h: RH.History, q: string)
    requires RH.Settling(h) && q in h.relay.pending
    ensures q in h.accepted && h.accepted[q] == h.relay.pending[q].cmdId
  {
    hide RI.Consistent;
  }

  lemma EventHasNoRequest(msg: Json)
    requires IsEvent(msg)
    ensures msg.Get("requestId") == None
  {
  }

  lemma RefusalUp(s: State, frame: Json)
    requires RO.IsRefusal(frame)
    ensures UpOk(s, frame)
  {
    var id, error :| frame == R.AckErr(id, error);
    W.AnswerReachesHost(id, W.Err(error));
  }

  lemma DuplicateUp(s: State, r: RelayId, id: string)
    requires s.reached[Arrival(r, id)] >= 2
    ensures UpOk(s, R.AckDuplicate(id))
  {
    hide Parse, Print;
    AckRoundTrip(AckPayload(id, true, None, Some(Null), Some(true)));
    assert Repeated(s, id);
  }

  lemma PassedOnUp(s: State, r: RelayId, i: R.Input, frame: Json)
    requires r in s.relays && RO.PassedOn(s.relays[r].relay, i, frame) && ReplyOk(s, r, i.msg)
    ensures IsEvent(frame) && UpOk(s, frame)
  {
    if !IsEvent(frame) {
      hide W.Response, AnswerFor, Parse, Print;
      var q: string, answer: W.Answer :| i.msg == W.Response(q, answer) && AnswerFor(s, r, q, answer);
      W.ResponseFields(q, answer);
      assert false;
    }
    var e :| frame == Print(Event(e));
    hide Parse, Print;
    EventRoundTrip(e);
  }

  lemma ReadyUp(s: State, bound: bool)
    ensures UpOk(s, Print(ReadyMsg(bound)))
  {
    hide Parse, Print;
    EventRoundTrip(EventPayload(READY_EVENT, Obj(map["ready" := Bool(bound)])));
  }

  /** What the input of a relay has to satisfy. */
  ghost predicate InputOk(s: State, r: RelayId, i: R.Input)
    requires r in s.relays
  {
    && (i.HostSends? ==> DownOk(s, i.msg))
    && (i.WasmSends? ==> ReplyOk(s, r, i.msg))
    && (forall id :: i.HostSends? && i.msg.Tag() == Some("cmd") && i.msg.Get("id") == Some(Str(id)) ==>
          s.reached[Arrival(r, id)] >= if D.Has(s.relays[r].relay.dedup, id) then 2 else 1)
  }

  lemma ExplainedUp(s: State, r: RelayId, i: R.Input, bound: bool, frame: Json)
    requires RelaysSound(s) && r in s.relays && InputOk(s, r, i)
    requires RO.Explained(s.relays[r].relay, i, bound, frame)
    ensures UpOk(s, frame)
  {
    hide Parse, Print, RH.Settling, ReplyOk, DownOk, UpOk, RO.IsRefusal, RO.AnsweredOk, RO.PassedOn, R.AckDuplicate, RO.Neutral;
    var relay := s.relays[r].relay;
    if RO.Neutral(frame) { NeutralUp(s, frame); }
    else if frame == Print(ReadyMsg(bound)) { ReadyUp(s, bound); }
    else if RO.IsRefusal(frame) { RefusalUp(s, frame); }
    else if RO.AnsweredOk(relay, i, frame) { AnsweredSends(relay, i, frame); AnswerGenuine(s, r, i, frame); }
    else if RO.PassedOn(relay, i, frame) { PassedSends(relay, i, frame); PassedOnUp(s, r, i, frame); }
    else { DuplicateUp(s, r, i.msg.Get("id").value.s); }
  }

  lemma NeutralUp(s: State, frame: Json)
    requires RO.Neutral(frame)
    ensures UpOk(s, frame)
  {
    hide Parse;
  }

  lemma AnsweredSends(relay: R.State, i: R.Input, frame: Json)
    requires RO.AnsweredOk(relay, i, frame)
    ensures i.WasmSends?
  {
  }

  lemma PassedSends(relay: R.State, i: R.Input, frame: Json)
    requires RO.PassedOn(relay, i, frame)
    ensures i.WasmSends?
  {
  }

  lemma NewFramesUp(s: State, r: RelayId, i: R.Input)
    requires RelaysSound(s) && r in s.relays && InputOk(s, r, i) && R.Enabled(s.relays[r].relay, i)
    ensures var out := R.Step(s.relays[r].relay, i).out;
            forall m: nat :: m < |out| && out[m].Send? ==> UpOk(RelayStep(s, r, i), out[m].frame)
  {
    hide UpOk, R.Step, R.Enabled, RH.Settling, InputOk, RO.Explained, Extends, RelayStep;
    var relay := s.relays[r].relay;
    var t, after := RelayStep(s, r, i), R.Step(relay, i);
    RO.StepExplained(relay, i);
    RelayExtends(s, r, i);
    forall m: nat | m < |after.out| && after.out[m].Send?
      ensures UpOk(t, after.out[m].frame)
    {
      ExplainedUp(s, r, i, after.commBusBound, after.out[m].frame);
      UpLater(s, t, after.out[m].frame);
    }
  }

  lemma CarriedUp(s: State, r: RelayId, i: R.Input)
    requires RelaysSound(s) && UpSound(s) && r in s.relays && InputOk(s, r, i) && R.Enabled(s.relays[r].relay, i)
    ensures UpSound(RelayStep(s, r, i))
  {
    hide UpOk, R.Step, R.Enabled, InputOk, Extends, RelayStep, FramesVia, RH.Settling, RH.Advance, RH.AcceptedBy, CallsIn, UpSound;
    var t, out := RelayStep(s, r, i), R.Step(s.relays[r].relay, i).out;
    NewFramesUp(s, r, i);
    RelayExtends(s, r, i);
    RelayStepFields(s, r, i);
    forall l, j: nat | l in t.ups && j < |t.ups[l]|
      ensures UpOk(t, t.ups[l][j]) || OldFrame(s, l, t.ups[l][j])
    {
      var before := UpOf(s, l);
      if j < |before| {
        assert t.ups[l][j] == before[j];
      } else {
        FramesComeFromSends(out, l.socket, j - |before|);
      }
    }
    UpFrame(s, t);
  }

  lemma InMarked(ring: D.Ring<string>, id: string, x: string)
    requires x in D.Mark(ring, id).order
    ensures x in ring.order || x == id
  {
  }

  lemma RelayRing(s: State, r: RelayId, i: R.Input)
    requires RelaysSound(s) && RingSound(s) && r in s.relays && InputOk(s, r, i) && R.Enabled(s.relays[r].relay, i)
    ensures RingSound(RelayStep(s, r, i))
  {
    hide R.Step, R.Enabled, RelayStep, D.Mark, RH.Settling, RH.Advance, RH.AcceptedBy, CallsIn, Carry, DownOk, ReplyOk;
    var t, relay := RelayStep(s, r, i), s.relays[r].relay;
    RelayStepFields(s, r, i);
    RH.StepSequence(relay, i);
    forall k, id | k in t.relays && id in t.relays[k].relay.dedup.order
      ensures (k in s.relays && id in s.relays[k].relay.dedup.order) || t.reached[Arrival(k, id)] >= 1
    {
      if k == r && RH.Offered(relay, i).Some? { InMarked(relay.dedup, RH.Offered(relay, i).value, id); }
    }
  }

  lemma RelayStepSound(s: State, r: RelayId, i: R.Input)
    requires Sound(s) && r in s.relays && InputOk(s, r, i) && R.Enabled(s.relays[r].relay, i)
    ensures Sound(RelayStep(s, r, i))
  {
    hide R.Step, R.Enabled, RelayStep, RH.Settling, RH.Advance, RH.AcceptedBy, CallsIn, HI.WaitersExact, UpOk, CallOk,
      ReplyOk, DownOk, Genuine, InputOk, UpSound, RingSound, Extends;
    var t := RelayStep(s, r, i);
    RelayStepFields(s, r, i);
    RelayExtends(s, r, i);
    if i.HostSends? { InputIsDown(s, r, i); }
    NewCallsOk(s, r, i);
    BusFrame(s, t);
    CarriedUp(s, r, i);
    RelayRing(s, r, i);
    RH.StepSettling(s.relays[r], i);
    SameHost(s, t);
    SeenFrame(s, t);
    DownFrame(s, t);
  }

  lemma InputIsDown(s: State, r: RelayId, i: R.Input)
    requires r in s.relays && InputOk(s, r, i) && i.HostSends?
    ensures DownOk(s, i.msg)
  {
  }

  lemma SameHost(s: State, t: State)
    requires t.host == s.host
    ensures SameCalls(s.host.hub, t.host.hub)
  {
  }

  // ---- Whole steps ----

  /** A record of something that happened only adds to what is known. */
  lemma RecordSound(s: State, t: State)
    requires Sound(s)
    requires t.host == s.host && t.relays == s.relays && t.buses == s.buses && t.ups == s.ups && t.conns == s.conns
    requires s.handled <= t.handled && s.reached <= t.reached
    ensures Sound(t) && Extends(s, t)
  {
    hide HI.WaitersExact, UpOk, CallOk, ReplyOk, DownOk, Genuine, RH.Settling;
    SeenFrame(s, t);
    DownFrame(s, t);
    BusFrame(s, t);
    UpFrame(s, t);
    RingFrame(s, t);
  }

  lemma ArriveSound(s: State, c: ClientId, clock: int, onThrows: bool)
    requires Sound(s) && Enabled(s, Arrives(c, clock, onThrows))
    ensures Sound(Step(s, Arrives(c, clock, onThrows)))
  {
    hide HI.WaitersExact, UpOk, CallOk, ReplyOk, DownOk, Genuine, RH.Settling, R.Enabled, HI.Advance, RelayStep, Reach,
      HostStep, Extends, UpSound, SeenSound, CallsSound, RepliesSound;
    var i := RelayInput(s, Arrives(c, clock, onThrows));
    var r := s.conns[c].link.relay;
    assert DownOk(s, i.msg);
    var s1 := HostStep(s, Hub.WriterSends(c));
    HostStepSound(s, Hub.WriterSends(c));
    HostOnly(s, Hub.WriterSends(c));
    DownInExtension(s, s1, i.msg);
    var s2 := Reach(s1, r, i.msg);
    ReachRecords(s1, r, i.msg);
    RecordSound(s1, s2);
    DownInExtension(s1, s2, i.msg);
    ReachedInput(s1, r, i);
    RelayStepSound(s2, r, i);
  }

  lemma HostOnly(s: State, i: Hub.Input)
    requires Hub.Enabled(s.host.hub, i)
    ensures var t := HostStep(s, i);
            && t.relays == s.relays && t.buses == s.buses && t.ups == s.ups && t.conns == s.conns
            && t.handled == s.handled && t.reached == s.reached
  {
    hide HI.Advance;
  }

  lemma DownInExtension(s: State, t: State, frame: Json)
    requires Extends(s, t) && DownOk(s, frame)
    ensures DownOk(t, frame)
  {
    hide DownOk;
    DownLater(s, t, frame);
  }

  lemma ReachRecords(s: State, r: RelayId, msg: Json)
    ensures var t := Reach(s, r, msg);
            t.host == s.host && t.relays == s.relays && t.buses == s.buses && t.ups == s.ups && t.conns == s.conns
            && s.handled == t.handled && s.reached <= t.reached
  {
  }

  lemma ReachedInput(s: State, r: RelayId, i: R.Input)
    requires RingSound(s) && r in s.relays && i.HostSends? && DownOk(Reach(s, r, i.msg), i.msg)
    ensures InputOk(Reach(s, r, i.msg), r, i)
  {
    hide DownOk;
  }

  lemma WasmGetSound(s: State, r: RelayId, env: Json, answer: W.Answer)
    requires Sound(s) && Enabled(s, WasmGets(r, env, answer))
    ensures Sound(WasmGet(s, r, env, answer))
  {
    hide HI.WaitersExact, UpOk, ReplyOk, DownOk, Genuine, RH.Settling, W.Unwrap, W.Response, Extends, UpSound, SeenSound, DownSound, RingSound, CallOk;
    assert CallOk(s, r, env);
    var q, n := EnvelopeOf(s, r, env);
    match W.Unwrap(env)
    case Some(Request(q0, Command(name, payload))) =>
      var s1 := s.(handled := s.handled + {Handled(r, q, name, payload, answer)});
      RecordSound(s, s1);
      var t := WasmGet(s, r, env, answer);
      NewReply(s1, r, q, n, answer);
      SameButBuses(s1, t);
      ReplyLater(s1, t, r, W.Response(q, answer));
      BusFrame(s1, t);
      BusesAside(s1, t);
    case _ =>
  }

  /** What is in an envelope that is answered: the request id and the command it was issued for. */
  lemma EnvelopeOf(s: State, r: RelayId, env: Json) returns (q: string, n: nat)
    requires CallOk(s, r, env)
    ensures match W.Unwrap(env)
            case Some(Request(q0, Command(name, payload))) =>
              q0 == q && IssuedFor(s, r, q, n)
              && name == s.host.hub.calls[n].name && payload == s.host.hub.calls[n].payload
            case _ => true
  {
    hide W.Unwrap, R.Envelope;
    var q0: string, msg: Json :| env == R.Envelope(q0, msg) && Wraps(s, r, q0, msg);
    q, n := q0, 0;
    if IsEvent(msg) {
      var e :| msg == Print(Event(e));
      hide Print;
      W.HostEventUnwraps(q, e, W.Err(""));
    } else {
      var m: nat :| m < |s.host.hub.calls| && msg == Hub.CmdFrame(s.host.hub.calls[m]) && IssuedFor(s, r, q, m);
      n := m;
      var c := s.host.hub.calls[n];
      W.HostCommandUnwraps(q, CmdPayload(c.id, c.name, c.payload));
    }
  }

  lemma NewReply(s: State, r: RelayId, q: string, n: nat, answer: W.Answer)
    requires IssuedFor(s, r, q, n) && Answered(s, r, q, n, answer)
    ensures ReplyOk(s, r, W.Response(q, answer))
  {
    hide W.Response;
    assert AnswerFor(s, r, q, answer);
  }

  lemma SameButBuses(s: State, t: State)
    requires t == s.(buses := t.buses)
    ensures Extends(s, t)
  {
  }

  lemma BusesAside(s: State, t: State)
    requires Sound(s) && t == s.(buses := t.buses) && t.buses.Keys == s.buses.Keys
    requires CallsSound(t) && RepliesSound(t)
    ensures Sound(t)
  {
    hide HI.WaitersExact, UpOk, DownOk, Genuine, RH.Settling, CallsSound, RepliesSound;
    SameButBuses(s, t);
    SeenFrame(s, t);
    DownFrame(s, t);
    UpFrame(s, t);
    RingFrame(s, t);
  }

  lemma WasmEmitSound(s: State, r: RelayId, e: EventPayload)
    requires Sound(s) && Enabled(s, WasmEmits(r, e))
    ensures Sound(Step(s, WasmEmits(r, e)))
  {
    hide HI.WaitersExact, UpOk, CallOk, DownOk, Genuine, RH.Settling, Print, UpSound, SeenSound, DownSound, RingSound, AnswerFor;
    var t := Step(s, WasmEmits(r, e));
    SameButBuses(s, t);
    assert IsEvent(Print(Event(e)));
    BusFrame(s, t);
    BusesAside(s, t);
  }

  /** Connections added or left and frames read, with no new frames. */
  lemma ConnsSound(s: State, t: State)
    requires Sound(s) && t == s.(conns := t.conns, ups := t.ups)
    requires forall c :: c in t.conns ==> t.conns[c].link.relay in s.relays
    requires forall l, j: nat :: l in t.ups && j < |t.ups[l]| ==> OldFrame(s, l, t.ups[l][j])
    ensures Sound(t)
  {
    hide HI.WaitersExact, UpOk, CallOk, ReplyOk, DownOk, Genuine, RH.Settling, RingSound;
    SeenFrame(s, t);
    DownFrame(s, t);
    BusFrame(s, t);
    UpFrame(s, t);
    RingFrame(s, t);
  }

  /** The host takes the first frame of a socket off its queue. */
  lemma PopSound(s: State, l: Link)
    requires Sound(s) && UpOf(s, l) != []
    ensures var t := s.(ups := s.ups[l := UpOf(s, l)[1..]]); Sound(t) && UpOk(t, UpOf(s, l)[0])
  {
    var frame, t := UpOf(s, l)[0], s.(ups := s.ups[l := UpOf(s, l)[1..]]);
    assert UpOk(s, frame);
    hide HI.WaitersExact, UpOk, CallOk, ReplyOk, DownOk, Genuine, RH.Settling, Extends, SeenSound, DownSound, CallsSound,
      RepliesSound, RingSound;
    forall k, j: nat | k in t.ups && j < |t.ups[k]| ensures OldFrame(s, k, t.ups[k][j]) {
      assert t.ups[k][j] == s.ups[k][if k == l then j + 1 else j];
    }
    ConnsSound(s, t);
    SameButConns(s, t);
    UpLater(s, t, frame);
  }

  lemma HostReadSound(s: State, c: ClientId)
    requires Sound(s) && c in s.conns && UpOf(s, s.conns[c].link) != []
    ensures Sound(HostRead(s, c))
  {
    hide Sound, UpOk, HI.Advance, HostStep, Server.TextInput, Extends, Hub.Enabled;
    var l := s.conns[c].link;
    var frame, s0 := UpOf(s, l)[0], s.(ups := s.ups[l := UpOf(s, l)[1..]]);
    PopSound(s, l);
    TouchEnabled(s0.host.hub, c);
    var s1 := HostStep(s0, Hub.DoTouch(c));
    HostStepSound(s0, Hub.DoTouch(c));
    UpLater(s0, s1, frame);
    ReadOneSound(s1, c, frame);
  }

  lemma SameButConns(s: State, t: State)
    requires t == s.(conns := t.conns, ups := t.ups)
    ensures Extends(s, t)
  {
  }

  lemma TouchEnabled(h: Hub.State, c: ClientId)
    ensures Hub.Enabled(h, Hub.DoTouch(c))
  {
  }

  lemma ReadOneSound(s: State, c: ClientId, frame: Json)
    requires Sound(s) && UpOk(s, frame)
    ensures match Server.TextInput(c, frame)
            case None => true
            case Some(i) => Hub.Enabled(s.host.hub, i) && Sound(HostStep(s, i))
  {
    hide HI.WaitersExact, CallOk, ReplyOk, DownOk, Genuine, RH.Settling, HI.Advance, HostStep, Parse, Print, Sound;
    match Server.TextInput(c, frame)
    case None =>
    case Some(DoTake(ack)) => TakeSound(s, ack);
    case Some(DoHello(k, hello)) => HostStepSound(s, Hub.DoHello(k, hello));
    case Some(DoReady(k, ready)) => HostStepSound(s, Hub.DoReady(k, ready));
    case Some(DoSendTo(k, msg)) =>
      ProbeDown(s, msg, c, frame);
      HostStepSound(s, Hub.DoSendTo(k, msg));
  }

  lemma ProbeDown(s: State, msg: Json, c: ClientId, frame: Json)
    requires Server.TextInput(c, frame) == Some(Hub.DoSendTo(c, msg))
    ensures DownOk(s, msg)
  {
    hide Print, Parse;
    assert IsProbe(msg);
  }

  lemma SentIsDown(s: State, i: Hub.Input)
    requires FromHost(i) && Hub.Enabled(s.host.hub, i)
    ensures Sends(i) ==> DownOk(s, SentFrame(s.host.hub, i))
  {
    hide Print, Hub.CmdFrame;
    if i.DoEmit? { assert IsEvent(SentFrame(s.host.hub, i)); }
    if i.DoOffer? { assert IsCommand(s, SentFrame(s.host.hub, i)); }
  }

  lemma PingDown(s: State, ts: Option<U64>)
    ensures DownOk(s, Print(Ping(ts)))
  {
    hide Print;
    assert IsProbe(Print(Ping(ts)));
  }

  lemma AcceptSound(s: State, c: ClientId, l: Link)
    requires Sound(s) && Enabled(s, Accepts(c, l))
    ensures Sound(Step(s, Accepts(c, l)))
  {
    hide HI.WaitersExact, UpOk, CallOk, ReplyOk, DownOk, Genuine, RH.Settling, HI.Advance, HostStep,
      SeenSound, DownSound, CallsSound, RepliesSound, RingSound;
    HostStepSound(s, Hub.DoInsert(c));
    HostOnly(s, Hub.DoInsert(c));
    var s1 := HostStep(s, Hub.DoInsert(c));
    SameUps(s1, s1.(conns := s.conns[c := Conn(l, true)]));
  }

  lemma SameUps(s: State, t: State)
    requires Sound(s) && t == s.(conns := t.conns)
    requires forall c :: c in t.conns ==> t.conns[c].link.relay in s.relays
    ensures Sound(t)
  {
    hide HI.WaitersExact, UpOk, CallOk, ReplyOk, DownOk, Genuine, RH.Settling, SeenSound, DownSound, CallsSound, RepliesSound, RingSound;
    forall l, j: nat | l in t.ups && j < |t.ups[l]| ensures OldFrame(s, l, t.ups[l][j]) {
      assert t.ups[l][j] == s.ups[l][j];
    }
    ConnsSound(s, t);
  }

  lemma QuietInput(s: State, r: RelayId, i: R.Input)
    requires r in s.relays && !i.HostSends? && !i.WasmSends?
    ensures InputOk(s, r, i)
  {
  }

  lemma ReplyInput(s: State, r: RelayId, msg: Json)
    requires RelaysSound(s) && RepliesSound(s) && r in s.relays && msg in s.buses[r].fromWasm
    ensures InputOk(s, r, R.WasmSends(msg))
  {
    hide ReplyOk, RH.Settling;
  }

  lemma LeaveSound(s: State, c: ClientId)
    requires Sound(s) && c in s.conns
    ensures Sound(s.(conns := s.conns[c := s.conns[c].(reading := false)]))
  {
    hide HI.WaitersExact, UpOk, CallOk, ReplyOk, DownOk, Genuine, RH.Settling, SeenSound, DownSound, CallsSound, RepliesSound, RingSound;
    SameUps(s, s.(conns := s.conns[c := s.conns[c].(reading := false)]));
  }

  predicate OfHost(i: Input) {
    i.HostDoes? || i.Pings? || i.Accepts? || i.HostReads? || i.HostLeaves? || i.HostUnregisters?
  }

  lemma HostSideSound(s: State, i: Input)
    requires Sound(s) && s.relays.Keys == s.buses.Keys && Enabled(s, i) && OfHost(i)
    ensures Sound(Step(s, i))
  {
    hide Sound, HostStep, RelayStep, Arrive, WasmGet, HostRead, Hub.Enabled, R.Enabled, FromHost, DownOk;
    match i
    case HostDoes(j) => SentIsDown(s, j); FromHostNotTake(j); HostStepSound(s, j);
    case Pings(c, ts) =>
      PingDown(s, ts);
      SendEnabled(s.host.hub, c, Print(Ping(ts)));
      HostStepSound(s, Hub.DoSendTo(c, Print(Ping(ts))));
    case Accepts(c, l) => AcceptSound(s, c, l);
    case HostReads(c) => HostReadSound(s, c);
    case HostLeaves(c) => LeaveSound(s, c);
    case HostUnregisters(c) => UnregisterEnabled(s.host.hub, c); HostStepSound(s, Hub.DoUnregister(c));
  }

  lemma SimSideSound(s: State, i: Input)
    requires Sound(s) && s.relays.Keys == s.buses.Keys && Enabled(s, i) && !OfHost(i)
    ensures Sound(Step(s, i))
  {
    hide Sound, HostStep, RelayStep, Arrive, WasmGet, HostRead, Hub.Enabled, R.Enabled, FromRelay, InputOk;
    match i
    case RelayDoes(r, j) => FromRelayQuiet(j); QuietInput(s, r, j); RelayStepSound(s, r, j);
    case Arrives(c, clock, onThrows) => ArriveSound(s, c, clock, onThrows);
    case WasmGets(r, env, answer) => WasmGetSound(s, r, env, answer);
    case WasmEmits(r, e) => WasmEmitSound(s, r, e);
    case WasmReaches(r, msg) => RepliesIn(s); ReplyInput(s, r, msg); RelayStepSound(s, r, R.WasmSends(msg));
  }

  lemma StepSound(s: State, i: Input)
    requires Sound(s) && Enabled(s, i)
    ensures s.relays.Keys == s.buses.Keys && Sound(Step(s, i))
  {
    SoundKeys(s);
    hide Sound, Step, Enabled;
    if OfHost(i) { HostSideSound(s, i); } else { SimSideSound(s, i); }
  }

  lemma SoundKeys(s: State)
    requires Sound(s)
    ensures s.relays.Keys == s.buses.Keys
  {
    hide RH.Settling;
  }

  lemma RepliesIn(s: State)
    requires Sound(s)
    ensures RelaysSound(s) && RepliesSound(s)
  {
    hide RelaysSound, RepliesSound;
  }

  lemma FromHostNotTake(i: Hub.Input)
    requires FromHost(i)
    ensures !i.DoTake?
  {
  }

  lemma FromRelayQuiet(i: R.Input)
    requires FromRelay(i)
    ensures !i.HostSends? && !i.WasmSends?
  {
  }

  lemma SendEnabled(h: Hub.State, c: ClientId, msg: Json)
    ensures Hub.Enabled(h, Hub.DoSendTo(c, msg)) && !Hub.DoSendTo(c, msg).DoTake?
  {
  }

  lemma UnregisterEnabled(h: Hub.State, c: ClientId)
    ensures Hub.Enabled(h, Hub.DoUnregister(c)) && !Sends(Hub.DoUnregister(c))
  {
  }

  lemma InitialSound(s: State)
    requires Initial(s)
    ensures Sound(s)
  {
    hide RH.Settling, RI.NeverStranded, RH.Initial;
    forall r | r in s.relays ensures RH.Settling(s.relays[r]) && s.relays[r].relay.dedup.order == [] {
      var cfg, capacity :| RH.Initial(s.relays[r], cfg, capacity);
      RH.InitialSettling(s.relays[r], cfg, capacity);
    }
    assert HI.WaitersExact(s.host);
    assert RelaysSound(s);
  }

  lemma {:induction false} RunSound(run: seq<State>, inputs: seq<Input>, k: nat)
    requires IsRun(run, inputs) && k < |run|
    ensures Sound(run[k])
  {
    if k == 0 {
      InitialSound(run[0]);
    } else {
      RunSound(run, inputs, k - 1);
      hide Sound, Enabled, Step, Initial;
      StepSound(run[k - 1], inputs[k - 1]);
    }
  }

  /**
   * In every run, whatever value `command` returns for a call is the module's answer to a request
   * that a relay issued for that very call, handled with the call's own name and payload; unless the
   * ack that won was a duplicate ack, and then some relay had been sent that command id twice.
   */
  lemma EndToEndSoundness(run: seq<State>, inputs: seq<Input>, k: nat, n: nat, v: Json)
    requires IsRun(run, inputs) && k < |run| && n < |run[k].host.hub.calls|
    requires run[k].host.hub.calls[n].phase == Hub.Finished(Hub.Answer(v))
    ensures var s, c := run[k], run[k].host.hub.calls[n];
            || (exists r, q :: IssuedFor(s, r, q, n) && Handled(r, q, c.name, c.payload, W.Ok(v)) in s.handled)
            || (c.slot.Filled? && c.slot.ack.IsDuplicate() && exists r :: s.reached[Arrival(r, c.id)] >= 2)
  {
    RunSound(run, inputs, k);
    hide IsRun, IssuedFor;
    WinningAck(run[k], n, v);
  }

  lemma WinningAck(s: State, n: nat, v: Json)
    requires Sound(s) && n < |s.host.hub.calls| && s.host.hub.calls[n].phase == Hub.Finished(Hub.Answer(v))
    ensures var c := s.host.hub.calls[n];
            || (exists r, q :: IssuedFor(s, r, q, n) && Handled(r, q, c.name, c.payload, W.Ok(v)) in s.handled)
            || (c.slot.Filled? && c.slot.ack.IsDuplicate() && exists r :: s.reached[Arrival(r, c.id)] >= 2)
  {
    hide UpSound, DownSound, CallsSound, RepliesSound, RingSound, RelaysSound, IssuedFor;
    var c, seen := s.host.hub.calls[n], s.host.seen[n];
    assert HI.SenderPlaced(s.host.hub, n, seen) && HI.EndedWell(s.host.hub, n, seen);
    var a := seen[0];
    assert IsCall(s, n, a.id) && Genuine(s, a);
    if a.IsDuplicate() {
      var r: RelayId :| s.reached[Arrival(r, a.id)] >= 2;
    } else {
      var m: nat :| IsCall(s, m, a.id) && AnswerTo(s, m, W.Ok(a.Answer()));
      assert m == n;
      var r: RelayId, q: string :| IssuedFor(s, r, q, n) && Answered(s, r, q, n, W.Ok(v));
    }
  }

  /**
   * An ack flagged as a duplicate, on its way to the host or already dispatched there, is for a
   * command id that some relay was sent at least twice.
   */
  lemma DuplicateMeansRepeated(run: seq<State>, inputs: seq<Input>, k: nat, a: AckPayload)
    requires IsRun(run, inputs) && k < |run| && a.IsDuplicate()
    requires var s := run[k];
             || (exists l, j: nat :: l in s.ups && j < |s.ups[l]| && Parse(s.ups[l][j]) == Some(Ack(a)))
             || (exists n: nat, j: nat :: n < |s.host.seen| && j < |s.host.seen[n]| && s.host.seen[n][j] == a)
    ensures exists r :: run[k].reached[Arrival(r, a.id)] >= 2
  {
    RunSound(run, inputs, k);
    hide IsRun, Parse;
    DuplicateIsRepeated(run[k], a);
  }

  lemma DuplicateIsRepeated(s: State, a: AckPayload)
    requires Sound(s) && a.IsDuplicate()
    requires || (exists l, j: nat :: l in s.ups && j < |s.ups[l]| && Parse(s.ups[l][j]) == Some(Ack(a)))
             || (exists n: nat, j: nat :: n < |s.host.seen| && j < |s.host.seen[n]| && s.host.seen[n][j] == a)
    ensures exists r :: s.reached[Arrival(r, a.id)] >= 2
  {
    hide DownSound, CallsSound, RepliesSound, RingSound, RelaysSound, HI.WaitersExact, Parse, AnswerTo;
    if l, j: nat :| l in s.ups && j < |s.ups[l]| && Parse(s.ups[l][j]) == Some(Ack(a)) {
      assert UpOk(s, s.ups[l][j]);
    } else {
      var n: nat, j: nat :| n < |s.host.seen| && j < |s.host.seen[n]| && s.host.seen[n][j] == a;
      assert IsCall(s, n, s.host.seen[n][j].id) && Genuine(s, s.host.seen[n][j]);
    }
    var r: RelayId :| s.reached[Arrival(r, a.id)] >= 2;
  }

  /** If no relay is sent a command id twice, every returned value is the module's answer to that command. */
  lemma SentOnceIsExact(run: seq<State>, inputs: seq<Input>, k: nat, n: nat, v: Json)
    requires IsRun(run, inputs) && k < |run| && n < |run[k].host.hub.calls|
    requires run[k].host.hub.calls[n].phase == Hub.Finished(Hub.Answer(v))
    requires forall r :: run[k].reached[Arrival(r, run[k].host.hub.calls[n].id)] <= 1
    ensures var s, c := run[k], run[k].host.hub.calls[n];
            exists r, q :: IssuedFor(s, r, q, n) && Handled(r, q, c.name, c.payload, W.Ok(v)) in s.handled
  {
    hide IsRun, IssuedFor;
    EndToEndSoundness(run, inputs, k, n, v);
  }
}
