/**
 * What reading one frame does at the host (crates/infinity-bridge-host/src/server.rs), message by
 * message, for the server, for the whole system and for the connection object; and what a tick sends.
 */
module ServerEffects {
  import opened Base
  import opened Json
  import opened Wire
  import Hub
  import HI = HubInvariants
  import HE = HubEffects
  import S = Server
  import Sys = System
  import O = HubObject
  import C = ServerObject

  type ClientId = Hub.ClientId

  /** The client table after a frame from this client, if it is still in it: it counts as seen now. */
  function SeenNow(h: Hub.State, id: ClientId): map<ClientId, Hub.Client> {
    if id in h.clients then h.clients[id := Hub.Client(h.clients[id].hello, h.now, h.clients[id].ready)] else h.clients
  }

  function Stamped(t: string, ts: Option<U64>): Json {
    Obj(map["t" := Str(t), "ts" := if ts.Some? then Int(ts.value as int) else Null])
  }

  // ---- Reading a frame ----

  /** An ack takes the sender of the call it names, whether it reports success or not. */
  lemma AckRead(h: Hub.State, id: ClientId, frame: Json, ack: AckPayload)
    requires Parse(frame) == Some(Ack(ack))
    ensures S.OnText(h, id, frame)
         == if ack.id in h.pending
            then h.(clients := SeenNow(h, id), pending := h.pending - {ack.id},
                    inHand := h.inHand[h.pending[ack.id] := ack])
            else h.(clients := SeenNow(h, id))
  {
    hide Parse;
  }

  /** A hello is stored for its client in place of any earlier one. */
  lemma HelloRead(h: Hub.State, id: ClientId, frame: Json, hello: HelloPayload)
    requires Parse(frame) == Some(Hello(hello))
    ensures S.OnText(h, id, frame)
         == if id in h.clients
            then h.(clients := h.clients[id := Hub.Client(Some(hello), h.now, h.clients[id].ready)])
            else h
  {
    hide Parse;
    if id in h.clients {
      assert S.OnText(h, id, frame).clients == h.clients[id := Hub.Client(Some(hello), h.now, h.clients[id].ready)];
    }
  }

  /** A readiness event sets the flag of its client: to the boolean it carries, else to true. */
  lemma ReadyRead(h: Hub.State, id: ClientId, frame: Json, data: Json)
    requires Parse(frame) == Some(Event(EventPayload("__bridge_ready", data)))
    ensures S.OnText(h, id, frame)
         == if id in h.clients
            then h.(clients := h.clients[id := Hub.Client(h.clients[id].hello, h.now, data.Get("ready") != Some(Bool(false)))])
            else h
  {
    hide Parse;
    if id in h.clients {
      var ready := data.Get("ready") != Some(Bool(false));
      assert S.OnText(h, id, frame).clients == h.clients[id := Hub.Client(h.clients[id].hello, h.now, ready)];
    }
  }

  /** A ping is answered with a pong of the same time, to the client that sent it. */
  lemma PingRead(h: Hub.State, id: ClientId, frame: Json, ts: Option<U64>)
    requires Parse(frame) == Some(Ping(ts))
    ensures S.OnText(h, id, frame)
         == if id in h.clients && id in h.chans && h.chans[id].open
            then h.(clients := SeenNow(h, id), chans := h.chans[id := Hub.Chan(h.chans[id].queue + [Stamped("pong", ts)], true)])
            else h.(clients := SeenNow(h, id))
  {
    var seen := h.(clients := SeenNow(h, id));
    HE.SendToQueues(seen, id, Print(Pong(ts)));
    hide Parse, Hub.SendTo;
    assert S.OnText(h, id, frame) == Hub.SendTo(seen, id, Print(Pong(ts)));
  }

  /** Anything else, undecodable frames included, only shows that the client is alive. */
  lemma OtherRead(h: Hub.State, id: ClientId, frame: Json)
    requires match Parse(frame)
             case None => true
             case Some(Pong(_)) => true
             case Some(Cmd(_)) => true
             case Some(Event(e)) => e.name != "__bridge_ready"
             case _ => false
    ensures S.OnText(h, id, frame) == h.(clients := SeenNow(h, id))
  {
    hide Parse;
  }

  // ---- In the whole system ----

  /** Reading a frame takes it off its socket and does to the hub what the server does; nothing else changes. */
  lemma HostReads(s: Sys.State, c: ClientId)
    requires c in s.conns && Sys.UpOf(s, s.conns[c].link) != []
    ensures var l, s' := s.conns[c].link, Sys.HostRead(s, c);
            && s'.host.hub == S.OnText(s.host.hub, c, s.ups[l][0])
            && s' == s.(host := s'.host, ups := s.ups[l := s.ups[l][1..]])
  {
    hide Parse, S.Asks, Hub.Touch, Hub.SetHello, Hub.SetReady, Hub.SendTo, Hub.Take;
  }

  /**
   * An ack read from a socket leaves the sender of the waiting call it names in hand with that ack,
   * and is the first ack this call has seen.
   */
  lemma AckReachesCall(s: Sys.State, c: ClientId, ack: AckPayload, n: Hub.CallId)
    requires c in s.conns && Sys.UpOf(s, s.conns[c].link) != []
    requires Parse(s.ups[s.conns[c].link][0]) == Some(Ack(ack))
    requires HI.WaitersExact(s.host) && n < |s.host.hub.calls|
    requires s.host.hub.calls[n].id == ack.id && s.host.hub.calls[n].phase.Waiting? && s.host.seen[n] == []
    ensures var h, g := s.host.hub, Sys.HostRead(s, c).host;
            && g.hub == h.(clients := SeenNow(h, c), pending := h.pending - {ack.id}, inHand := h.inHand[n := ack])
            && n < |g.seen| && g.seen[n] == [ack] && h.calls[n].slot.Empty?
  {
    var h := s.host.hub;
    HostReads(s, c);
    AckRead(h, c, s.ups[s.conns[c].link][0], ack);
    assert HI.SenderPlaced(h, n, s.host.seen[n]);
    hide Parse, HI.WaitersExact;
    TakenAckSeen(s, c, ack, n);
  }

  lemma TakenAckSeen(s: Sys.State, c: ClientId, ack: AckPayload, n: Hub.CallId)
    requires c in s.conns && Sys.UpOf(s, s.conns[c].link) != []
    requires Parse(s.ups[s.conns[c].link][0]) == Some(Ack(ack))
    requires |s.host.seen| == |s.host.hub.calls| && n < |s.host.hub.calls| && s.host.hub.calls[n].id == ack.id
    ensures var g := Sys.HostRead(s, c).host; n < |g.seen| && g.seen[n] == s.host.seen[n] + [ack]
  {
    hide Parse;
  }

  // ---- Ticks ----

  /** A tick reaps every silent client, whoever it belongs to; a client that was not silent is probed next. */
  lemma TickProbes(s: S.State, c: ClientId)
    requires S.Enabled(s, S.Tick(c))
    ensures var s' := S.Step(s, S.Tick(c));
            && s'.hub == Hub.Step(s.hub, Hub.DoReap(s.cfg.timeout)) && s'.conns.Keys == s.conns.Keys
            && s'.conns[c].lastTick == s.hub.now
            && (if c in s.hub.clients && s.hub.now - s.hub.clients[c].lastSeen > s.cfg.timeout
                then s'.conns[c].ping.Stopped? && s'.conns[c].signals == s.conns[c].signals + 1
                else s'.conns[c].ping.Probing? && s'.conns[c].signals == s.conns[c].signals)
  {
    hide Hub.Reap;
  }

  /** Whatever a read loop reads, the hub hears of it. */
  lemma ReadReads(s: S.State, c: ClientId, frame: Json)
    requires S.Enabled(s, S.Read(c, frame))
    ensures S.Step(s, S.Read(c, frame)).hub == S.OnText(s.hub, c, frame)
  {
    hide S.OnText;
  }

  /** A probe puts one ping at the end of the client's queue, or signals its read loop. */
  lemma ProbeSends(s: S.State, c: ClientId, ts: Option<U64>)
    requires S.Enabled(s, S.Probe(c, ts))
    ensures var s', h, conn := S.Step(s, S.Probe(c, ts)), s.hub, s.conns[c];
            if c in h.clients && c in h.chans && h.chans[c].open
            then && s'.hub == h.(chans := h.chans[c := Hub.Chan(h.chans[c].queue + [Stamped("ping", ts)], true)])
                 && s'.conns == s.conns[c := conn.(ping := S.Sleeping, outstanding := conn.outstanding + [h.now])]
            else s' == s.(conns := s.conns[c := conn.(ping := S.Stopped, signals := conn.signals + 1)])
  {
    HE.SendToQueues(s.hub, c, Print(Ping(ts)));
    hide Hub.SendTo;
  }

  // ---- The connection object ----

  /** Reading an ack in the object: the waiting call receives it at once, whatever it reports. */
  lemma AckFrameFires(h: Hub.State, id: ClientId, frame: Json, ack: AckPayload, n: Hub.CallId)
    requires Parse(frame) == Some(Ack(ack))
    requires ack.id in h.pending && h.pending[ack.id] == n && n < |h.calls|
    requires (h.calls[n].phase.Inserted? || h.calls[n].phase.Waiting?) && h.calls[n].slot.Empty?
    ensures C.OnFrame(h, id, frame)
         == h.(clients := SeenNow(h, id), pending := h.pending - {ack.id}, inHand := h.inHand - {n},
               calls := h.calls[n := h.calls[n].(slot := Hub.Filled(ack))])
  {
    AckRead(h, id, frame, ack);
    C.FrameIsServerStep(h, id, frame);
    hide Parse, C.OnFrame, S.OnText;
    assert h.inHand[n := ack] - {n} == h.inHand - {n};
  }

  /** The read loop handles every frame before the event that ends it, one after the other. */
  lemma ReadsInOrder(h: Hub.State, id: ClientId, events: seq<C.ReadEvent>, frame: Json)
    ensures C.AfterReading(h, id, []) == h
    ensures C.AfterReading(h, id, events + [C.Next(C.Text(frame))]) == C.OnFrame(C.AfterReading(h, id, events), id, frame)
    ensures C.AfterReading(h, id, events + [C.Next(C.Other)]) == C.AfterReading(h, id, events)
  {
    hide C.OnFrame;
    assert (events + [C.Next(C.Text(frame))])[..|events|] == events;
    assert (events + [C.Next(C.Other)])[..|events|] == events;
  }

  /** Any frame but an ack does in the object what it does in the server. */
  lemma OtherFrames(h: Hub.State, id: ClientId, frame: Json)
    requires Parse(frame).Some? ==> !Parse(frame).value.Ack?
    ensures C.OnFrame(h, id, frame) == S.OnText(h, id, frame)
  {
    C.FrameIsServerStep(h, id, frame);
    hide Parse, C.OnFrame, S.OnText;
  }
}
