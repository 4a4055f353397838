/** The tasks of one connection (crates/infinity-bridge-host/src/server.rs) as code over a hub object. */
module ServerObject {
  import opened Base
  import opened Json
  import opened Wire
  import H = Hub
  import S = Server
  import O = HubObject

  datatype Message = Text(frame: Json) | CloseFrame | Other

  /** Which arm of the read loop's select completes. */
  datatype ReadEvent = Reaped | Next(message: Message) | StreamEnds {
    predicate Ends() {
      Reaped? || StreamEnds? || (Next? && message.CloseFrame?)
    }
  }

  /** What a frame has the hub do, an ack's two halves in one. */
  function Applied(h: H.State, i: Option<H.Input>): H.State {
    match i
    case Some(DoHello(k, hello)) => H.SetHello(h, k, hello)
    case Some(DoReady(k, ready)) => H.SetReady(h, k, ready)
    case Some(DoSendTo(k, msg)) => H.SendTo(h, k, msg)
    case Some(DoTake(ack)) => O.Acked(h, ack)
    case _ => h
  }

  /** One text frame. */
  function OnFrame(h: H.State, id: H.ClientId, frame: Json): H.State {
    Applied(H.Touch(h, id), S.TextInput(id, frame))
  }

  /** Reading a frame is the server's step for it, followed by firing the ack it took, if any. */
  lemma FrameIsServerStep(h: H.State, id: H.ClientId, frame: Json)
    ensures var stepped, i := S.OnText(h, id, frame), S.TextInput(id, frame);
            if i.Some? && i.value.DoTake? && i.value.ack.id in h.pending
            then OnFrame(h, id, frame) == H.Deliver(stepped, h.pending[i.value.ack.id])
            else OnFrame(h, id, frame) == stepped
  {
    TouchKeepsPending(h, id);
    hide S.TextInput, H.Touch, H.SetHello, H.SetReady, H.SendTo, H.Deliver;
  }

  /** What reading these events, none of which ends the loop, does to the hub. */
  function AfterReading(h: H.State, id: H.ClientId, events: seq<ReadEvent>): H.State {
    if events == [] then h
    else
      var before := AfterReading(h, id, events[..|events| - 1]);
      var last := events[|events| - 1];
      if last.Next? && last.message.Text? then OnFrame(before, id, last.message.frame) else before
  }

  /** A client that is in the table when a connection ends is out of it once it has ended. */
  lemma {:induction false} ReadingKeepsClients(h: H.State, id: H.ClientId, events: seq<ReadEvent>)
    ensures AfterReading(h, id, events).clients.Keys == h.clients.Keys
  {
    if events != [] {
      var before := AfterReading(h, id, events[..|events| - 1]);
      ReadingKeepsClients(h, id, events[..|events| - 1]);
      var last := events[|events| - 1];
      if last.Next? && last.message.Text? {
        S.TextKeepsClients(before, id, last.message.frame);
        FrameIsServerStep(before, id, last.message.frame);
        hide S.OnText, S.TextInput, OnFrame;
      }
    }
  }

  lemma TouchKeepsPending(h: H.State, id: H.ClientId)
    ensures H.Touch(h, id).pending == h.pending
  {
  }

  /** One ping for each tick. */
  function Pings(stamps: seq<Option<U64>>): seq<Json> {
    seq(|stamps|, k requires 0 <= k < |stamps| => Print(Ping(stamps[k])))
  }

  /** The sender of the call that the ack names is gone, and the call, if it was still waiting, has the ack. */
  predicate Received(h: H.State, h': H.State, ack: AckPayload) {
    ack.id in h.pending ==>
      && ack.id !in h'.pending
      && var n := h.pending[ack.id];
      n < |h.calls| && (h.calls[n].phase.Inserted? || h.calls[n].phase.Waiting?) && h.calls[n].slot.Empty? ==>
        h'.calls == h.calls[n := h.calls[n].(slot := H.Filled(ack))]
  }

  lemma ReceivesAck(h: H.State, id: H.ClientId, frame: Json)
    ensures Parse(frame).Some? && Parse(frame).value.Ack? ==> Received(h, OnFrame(h, id, frame), Parse(frame).value.ack)
  {
    hide Parse;
  }

  class Connection {
    const hub: O.Hub
    const id: H.ClientId
    var signals: nat   // times the reaped signal was fired

    constructor (hub: O.Hub)
      modifies hub
      ensures this.hub == hub && signals == 0 && id == old(hub.nextId)
      ensures hub.State() == H.Insert(H.Draw(old(hub.State())), id)
    {
      var registered := hub.RegisterClient();
      this.hub, this.id, signals := hub, registered, 0;
    }

    method OnWire(wire: WireMsg)
      modifies hub
      ensures hub.State() == Applied(old(hub.State()), S.Asks(id, wire))
    {
      hide Print, H.SetHello, H.SetReady, H.SendTo, O.Acked;
      match wire {
        case Hello(hello) => hub.SetClientHello(id, hello);
        case Ack(ack) => hub.DispatchAck(ack);
        case Event(e) =>
          if e.name == READY_EVENT {
            hub.SetClientReady(id, ReadyValue(e.data));
          }
        case Pong(_) =>
        case Cmd(_) =>
        case Ping(ts) => var sent := hub.SendTo(id, Print(Pong(ts)));
      }
    }

    /** Any text is a sign of life, even one that does not decode. */
    method OnText(frame: Json)
      modifies hub
      ensures hub.State() == OnFrame(old(hub.State()), id, frame)
      ensures Parse(frame).Some? && Parse(frame).value.Ack? ==> Received(old(hub.State()), hub.State(), Parse(frame).value.ack)
    {
      ReceivesAck(hub.State(), id, frame);
      hide H.Touch, Parse, S.Asks, H.SetHello, H.SetReady, H.SendTo, O.Acked, Received;
      hub.TouchClient(id);
      var wire := Parse(frame);
      if wire.Some? {
        OnWire(wire.value);
      }
    }

    /** Reads until an event ends the loop; `read` events were handled before it. */
    method ReadLoop(events: seq<ReadEvent>) returns (read: nat)
      modifies hub
      ensures read <= |events| && (read < |events| ==> events[read].Ends())
      ensures forall k :: 0 <= k < read ==> !events[k].Ends()
      ensures hub.State() == AfterReading(old(hub.State()), id, events[..read])
    {
      hide OnFrame;
      read := 0;
      while read < |events| && !events[read].Ends()
        invariant read <= |events| && forall k :: 0 <= k < read ==> !events[k].Ends()
        invariant hub.State() == AfterReading(old(hub.State()), id, events[..read])
      {
        assert events[..read + 1][..read] == events[..read];
        if events[read].message.Text? {
          OnText(events[read].message.frame);
        }
        read := read + 1;
      }
    }

    /** The read loop and the teardown behind it: whatever ended the loop, the client is gone. */
    method Serve(events: seq<ReadEvent>) returns (read: nat)
      modifies hub
      ensures read <= |events| && forall k :: 0 <= k < read ==> !events[k].Ends()
      ensures hub.State() == H.Unregister(AfterReading(old(hub.State()), id, events[..read]), id)
      ensures id !in hub.clients && hub.clients.Keys == old(hub.clients.Keys) - {id}
    {
      hide AfterReading;
      read := ReadLoop(events);
      ReadingKeepsClients(old(hub.State()), id, events[..read]);
      hub.UnregisterClient(id);
    }

    /** One turn of the ping loop: reap everybody, then probe this client or give up on it. */
    method PingTick(timeout: nat, ts: Option<U64>) returns (stop: bool)
      modifies hub, this`signals
      ensures var h := old(hub.State());
              var reaped := H.Reap(h, timeout);
              && stop == (id in H.Dead(h, timeout) || !H.CanSendTo(reaped, id))
              && hub.State() == (if stop then reaped else H.SendTo(reaped, id, Print(Ping(ts))))
      ensures signals == old(signals) + if stop then 1 else 0
      ensures !stop ==> id in hub.clients && id in old(hub.chans)
                        && hub.chans == old(hub.chans)[id := H.Chan(old(hub.chans)[id].queue + [Print(Ping(ts))], true)]
      ensures stop ==> hub.chans == old(hub.chans)
    {
      hide Print;
      var dead := hub.ReapDeadClients(timeout);
      assert id in H.Dead(old(hub.State()), timeout) ==> id !in hub.clients;
      hide H.Reap, H.Dead;
      if id in dead {
        signals := signals + 1;
        return true;
      }
      var sent := hub.SendTo(id, Print(Ping(ts)));
      stop := !sent;
      if stop {
        signals := signals + 1;
      }
    }

    /** The ping loop over the clock readings of its ticks; the signal fires at most once. */
    method PingLoop(timeout: nat, stamps: seq<Option<U64>>) returns (ticks: nat, stop: bool)
      modifies hub, this`signals
      ensures signals == old(signals) + if stop then 1 else 0
      ensures ticks <= |stamps| && (!stop ==> ticks == |stamps|)
      ensures id !in old(hub.clients) && stamps != [] ==> stop && ticks == 1
      ensures !stop && stamps != [] ==>
                id in old(hub.chans) && id in hub.chans && hub.chans[id].queue == old(hub.chans)[id].queue + Pings(stamps)
    {
      hide Print, H.SendTo, H.Accepts;
      ticks, stop := 0, false;
      while ticks < |stamps| && !stop
        invariant ticks <= |stamps| && signals == old(signals) + (if stop then 1 else 0)
        invariant ticks == 0 ==> !stop && hub.State() == old(hub.State())
        invariant id !in old(hub.clients) ==> ticks == 0 || (stop && ticks == 1)
        invariant !stop && ticks > 0 ==>
                    && id in old(hub.chans) && id in hub.chans
                    && hub.chans[id].queue == old(hub.chans)[id].queue + Pings(stamps[..ticks])
      {
        stop := PingTick(timeout, stamps[ticks]);
        assert Pings(stamps[..ticks + 1]) == Pings(stamps[..ticks]) + [Print(Ping(stamps[ticks]))];
        ticks := ticks + 1;
      }
      assert stamps[..|stamps|] == stamps;
    }
  }
}
