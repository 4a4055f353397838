/**
 * The hub (crates/infinity-bridge-host/src/hub.rs) and the bodies of the connection tasks
 * (server.rs) as code that updates tables in place. Every method is proved to do to the tables
 * exactly what the module Hub says in one step, loops over the client map included.
 */
module HubObject {
  import opened Base
  import opened Json
  import opened Wire
  import H = Hub
  import HI = HubInvariants
  import HE = HubEffects

  type ClientId = H.ClientId
  type CallId = H.CallId

  class Hub {
    var nextId: ClientId
    var drawn: set<ClientId>
    var clients: map<ClientId, H.Client>
    var chans: map<ClientId, H.Chan>
    var connected: bool
    var pending: map<string, CallId>
    var calls: seq<H.Call>
    var inHand: map<CallId, AckPayload>
    var now: nat

    function State(): H.State
      reads this
    {
      H.State(nextId, drawn, clients, chans, connected, pending, calls, inHand, now)
    }

    constructor ()
      ensures State() == H.INITIAL
    {
      nextId, drawn, clients, chans, connected := 1, {}, map[], map[], false;
      pending, calls, inHand, now := map[], [], map[], 0;
    }

    // ---- Clients ----

    /** The id is drawn first; the client is inserted under the clients lock. */
    method RegisterClient() returns (id: ClientId)
      modifies this
      ensures State() == H.Insert(H.Draw(old(State())), id) && id == old(nextId)
    {
      id := DrawId();
      clients := clients[id := H.Client(None, now, false)];
      chans := chans[id := H.Chan([], true)];
      drawn := drawn - {id};
      connected := true;
    }

    method DrawId() returns (id: ClientId)
      modifies this`nextId, this`drawn
      ensures State() == H.Draw(old(State())) && id == old(nextId)
    {
      id := nextId;
      nextId := nextId + 1;
      drawn := drawn + {id};
    }

    method SetClientHello(id: ClientId, hello: HelloPayload)
      modifies this`clients
      ensures State() == H.SetHello(old(State()), id, hello)
    {
      if id in clients {
        clients := clients[id := clients[id].(hello := Some(hello))];
      }
    }

    method UnregisterClient(id: ClientId)
      modifies this`clients, this`connected
      ensures State() == H.Unregister(old(State()), id)
    {
      clients := clients - {id};
      connected := clients != map[];
    }

    method TouchClient(id: ClientId)
      modifies this`clients
      ensures State() == H.Touch(old(State()), id)
    {
      if id in clients {
        clients := clients[id := clients[id].(lastSeen := now)];
      }
    }

    method SetClientReady(id: ClientId, ready: bool)
      modifies this`clients
      ensures State() == H.SetReady(old(State()), id, ready)
    {
      if id in clients {
        clients := clients[id := clients[id].(ready := ready)];
      }
    }

    method CollectDead(timeout: nat) returns (dead: seq<ClientId>)
      ensures Distinct(dead) && forall k :: k in dead <==> k in H.Dead(State(), timeout)
    {
      dead := [];
      var todo := clients.Keys;
      while todo != {}
        invariant todo <= clients.Keys
        invariant Distinct(dead)
        invariant forall k :: k in dead <==> k in H.Dead(State(), timeout) && k !in todo
        decreases |todo|
      {
        var k :| k in todo;
        todo := todo - {k};
        if now > clients[k].lastSeen + timeout {
          dead := dead + [k];
        }
      }
    }

    /** The ids reaped, each once, in the order the map is walked. */
    method ReapDeadClients(timeout: nat) returns (dead: seq<ClientId>)
      modifies this`clients, this`connected
      ensures State() == H.Reap(old(State()), timeout)
      ensures Distinct(dead) && forall k :: k in dead <==> k in H.Dead(old(State()), timeout)
    {
      dead := CollectDead(timeout);
      ghost var gone := H.Dead(State(), timeout);
      ReapMeans(State(), timeout);
      hide H.Dead, H.Reap;
      for i := 0 to |dead|
        invariant clients == old(clients) - (set k | k in dead[..i]) && connected == old(connected)
      {
        clients := clients - {dead[i]};
        assert dead[..i + 1] == dead[..i] + [dead[i]];
      }
      assert dead[..|dead|] == dead;
      assert gone == set k | k in dead;
      if dead != [] {
        assert dead[0] in gone;
        connected := clients != map[];
      } else {
        assert gone == {};
      }
    }

    /** Whether some client has reported its downstream link bound. */
    method IsReady() returns (ready: bool)
      ensures ready <==> exists k :: k in clients && clients[k].ready
    {
      ready := false;
      var todo := clients.Keys;
      while todo != {}
        invariant todo <= clients.Keys
        invariant ready <==> exists k :: k in clients && k !in todo && clients[k].ready
        decreases |todo|
      {
        var k :| k in todo;
        todo := todo - {k};
        ready := ready || clients[k].ready;
      }
    }

    // ---- Sending ----

    /** One message into one client's queue; it fails when the receiver is gone. */
    method SendTx(k: ClientId, msg: Json) returns (ok: bool)
      modifies this`chans
      ensures ok <==> H.Accepts(old(State()), k)
      ensures State() == H.OfferTo(old(State()), {k}, msg)
    {
      ok := k in chans && chans[k].open;
      if ok {
        chans := chans[k := H.Chan(chans[k].queue + [msg], true)];
      }
      assert chans == H.OfferTo(old(State()), {k}, msg).chans;
    }

    /** One turn of a send loop that has served the clients in `done` since the tables were `from`. */
    method SendNext(k: ClientId, msg: Json, ghost from: H.State, ghost done: set<ClientId>) returns (ok: bool)
      requires State() == H.OfferTo(from, done, msg) && k !in done
      modifies this`chans
      ensures State() == H.OfferTo(from, done + {k}, msg)
      ensures ok <==> H.Accepts(from, k)
    {
      StillAccepts(from, done, msg, k);
      OfferOneMore(from, done, msg, k);
      hide H.OfferTo, H.Accepts;
      ok := SendTx(k, msg);
    }

    method SendTo(id: ClientId, msg: Json) returns (ok: bool)
      modifies this`chans
      ensures State() == H.SendTo(old(State()), id, msg)
      ensures ok <==> id in clients && id in old(chans) && old(chans)[id].open
      ensures chans == if ok then old(chans)[id := H.Chan(old(chans)[id].queue + [msg], true)] else old(chans)
    {
      HE.SendToQueues(State(), id, msg);
      if id !in clients {
        return false;
      }
      ok := SendTx(id, msg);
      if !ok { assert State() == old(State()) by { NoneOffered(old(State()), id, msg); } }
    }

    /** Offers one message to all clients and counts those that do not take it. */
    method SendToAll(msg: Json) returns (sendFailures: nat)
      requires clients != map[]
      modifies this`chans
      ensures State() == H.OfferTo(old(State()), clients.Keys, msg)
      ensures sendFailures > 0 && sendFailures == |clients| <==> forall k :: k in clients ==> !H.Accepts(old(State()), k)
    {
      hide H.OfferTo, H.Accepts;
      sendFailures := 0;
      var todo := clients.Keys;
      NobodyOffered(State(), msg);
      assert clients.Keys - todo == {};
      while todo != {}
        invariant todo <= clients.Keys
        invariant State() == H.OfferTo(old(State()), clients.Keys - todo, msg)
        invariant sendFailures <= |clients.Keys - todo|
        invariant sendFailures == |clients.Keys - todo| <==>
                    forall k :: k in clients && k !in todo ==> !H.Accepts(old(State()), k)
        decreases |todo|
      {
        var k :| k in todo;
        ghost var done := clients.Keys - todo;
        var ok := SendNext(k, msg, old(State()), done);
        todo := todo - {k};
        assert clients.Keys - todo == done + {k};
        if !ok {
          sendFailures := sendFailures + 1;
        }
      }
      assert clients.Keys - todo == clients.Keys;
    }

    /** Offers an event to all clients, ready or not; an error when there are none or none accepted. */
    method Emit(name: string, data: Json) returns (failed: Option<H.ErrorKind>)
      modifies this`chans
      ensures State() == H.Emit(old(State()), name, data)
      ensures failed == if clients == map[] then Some(H.NoClients)
                        else if forall k :: k in clients ==> !(k in old(chans) && old(chans)[k].open) then Some(H.Transport)
                        else None
      ensures chans.Keys == old(chans).Keys
      ensures forall k :: k in chans ==>
                chans[k] == if k in clients && old(chans)[k].open
                            then H.Chan(old(chans)[k].queue + [Print(Event(EventPayload(name, data)))], true) else old(chans)[k]
    {
      hide Print;
      var msg := Print(Event(EventPayload(name, data)));
      HI.OfferedQueues(State(), clients.Keys, msg);
      hide H.OfferTo;
      if clients == map[] {
        assert clients.Keys == {};
        NobodyOffered(State(), msg);
        return Some(H.NoClients);
      }
      var sendFailures := SendToAll(msg);
      if sendFailures > 0 && sendFailures == |clients| {
        return Some(H.Transport);
      }
      return None;
    }

    // ---- Commands ----

    /** The waiter is stored before anything is sent. */
    method BeginCommand(id: string, name: Option<string>, payload: Json, timeout: nat) returns (n: CallId)
      modifies this`pending, this`calls
      ensures State() == H.Begin(old(State()), id, name, payload, timeout) && n == |old(calls)|
    {
      n := |calls|;
      if id in pending && pending[id] < |calls| && calls[pending[id]].slot.Empty? {
        calls := calls[pending[id] := calls[pending[id]].(slot := H.Dropped)];
      }
      pending := pending[id := n];
      calls := calls + [H.Call(id, name, payload, timeout, 0, H.Inserted, H.Empty)];
    }

    method FailFast(n: CallId, outcome: H.Outcome)
      requires n < |calls|
      modifies this`pending, this`calls
      ensures State() == H.FailFast(old(State()), n, outcome)
    {
      pending := pending - {calls[n].id};
      calls := calls[n := calls[n].(phase := H.Finished(outcome))];
    }

    /** Walks the client map once, passing over those that are not ready when some are. */
    method SendLoop(msg: Json, anyReady: bool, ghost targets: set<ClientId>) returns (delivered: nat)
      requires forall k :: k in targets <==> k in clients && (!anyReady || clients[k].ready)
      modifies this`chans
      ensures State() == H.OfferTo(old(State()), targets, msg)
      ensures delivered > 0 <==> SomeAccept(old(State()), targets)
    {
      hide H.OfferTo, H.Accepts, SomeAccept;
      ghost var from, served := State(), {};
      delivered := 0;
      var todo := clients.Keys;
      NobodyOffered(from, msg);
      OneMoreAccepts(from, served, 0);
      while todo != {}
        invariant todo <= clients.Keys
        invariant served == targets - todo
        invariant State() == H.OfferTo(from, served, msg)
        invariant delivered > 0 <==> SomeAccept(from, served)
        decreases |todo|
      {
        var k :| k in todo;
        todo := todo - {k};
        if anyReady && !clients[k].ready {
          continue;
        }
        OneMoreAccepts(from, served, k);
        var ok := SendNext(k, msg, from, served);
        served := served + {k};
        delivered := if ok then delivered + 1 else delivered;
      }
      assert served == targets;
    }

    /** Offers a command to the ready clients if there are any, else to everybody. */
    method SendToTargets(msg: Json) returns (delivered: nat)
      modifies this`chans
      ensures State() == H.OfferTo(old(State()), H.Targets(old(State())), msg)
      ensures delivered > 0 <==> SomeAccept(old(State()), H.Targets(old(State())))
    {
      var anyReady := IsReady();
      assert anyReady <==> H.AnyReady(State());
      hide H.OfferTo, H.Accepts, H.AnyReady, SomeAccept;
      delivered := SendLoop(msg, anyReady, H.Targets(State()));
    }

    /** The section under the clients lock: fail at once, or send and start waiting. */
    method OfferCommand(n: CallId)
      requires n < |calls|
      modifies this`chans, this`pending, this`calls
      ensures State() == H.Offer(old(State()), n)
    {
      hide H.CmdFrame, H.Targets, H.Accepts;
      if clients == map[] {
        FailFast(n, H.NO_GAUGES);
        return;
      }
      var delivered := SendToTargets(H.CmdFrame(calls[n]));
      if delivered == 0 {
        NoneAccepted(old(State()), H.Targets(old(State())), H.CmdFrame(calls[n]));
        FailFast(n, H.NOT_ACCEPTED);
      } else {
        calls := calls[n := calls[n].(phase := H.Waiting, deadline := now + calls[n].timeout)];
      }
    }

    /** The await is over: by the ack, a dropped sender or the deadline. */
    method EndWait(n: CallId) returns (outcome: H.Outcome)
      requires n < |calls| && H.Resolution(State(), calls[n]).Some?
      modifies this`calls
      ensures State() == H.Resolve(old(State()), n) && outcome == H.Resolution(old(State()), old(calls[n])).value
    {
      match calls[n].slot {
        case Filled(ack) =>
          if ack.ok {
            outcome := H.Answer(ack.response.GetOr(Null));
          } else {
            outcome := H.Failed(H.Application, ack.error.GetOr("unknown error"));
          }
        case Dropped => outcome := H.SENDER_DROPPED;
        case Empty => outcome := H.TIMED_OUT;
      }
      calls := calls[n := calls[n].(phase := H.Resolved(outcome))];
    }

    method FinishCommand(n: CallId)
      requires n < |calls| && calls[n].phase.Resolved?
      modifies this`pending, this`calls
      ensures State() == H.Finish(old(State()), n)
    {
      pending := pending - {calls[n].id};
      calls := calls[n := calls[n].(phase := H.Finished(calls[n].phase.outcome))];
    }

    // ---- Acks ----

    /** Takes the sender out of the table, then fires it. */
    method DispatchAck(ack: AckPayload)
      modifies this`pending, this`calls, this`inHand
      ensures State() == Acked(old(State()), ack)
    {
      if ack.id !in pending {
        return;
      }
      var n := pending[ack.id];
      pending := pending - {ack.id};
      inHand := inHand[n := ack];
      Fire(n);
    }

    /** The sender goes off; nothing happens if nobody receives any more. */
    method Fire(n: CallId)
      requires n in inHand
      modifies this`calls, this`inHand
      ensures State() == H.Deliver(old(State()), n)
    {
      var ack := inHand[n];
      inHand := inHand - {n};
      if n < |calls| && calls[n].phase.Receiving() && calls[n].slot.Empty? {
        calls := calls[n := calls[n].(slot := H.Filled(ack))];
      }
    }
  }

  ghost predicate SomeAccept(h: H.State, ids: set<ClientId>) {
    exists k :: k in ids && H.Accepts(h, k)
  }

  lemma OneMoreAccepts(h: H.State, ids: set<ClientId>, k: ClientId)
    ensures SomeAccept(h, ids + {k}) <==> SomeAccept(h, ids) || H.Accepts(h, k)
    ensures !SomeAccept(h, {})
  {
    hide H.Accepts;
    if SomeAccept(h, ids) {
      var j :| j in ids && H.Accepts(h, j);
      assert j in ids + {k};
    }
    assert k in ids + {k};
  }

  /** Both halves of dispatching an ack. */
  function Acked(h: H.State, ack: AckPayload): H.State {
    if ack.id in h.pending then H.Deliver(H.Take(h, ack), h.pending[ack.id]) else h
  }

  lemma ReapMeans(h: H.State, timeout: nat)
    ensures var dead := H.Dead(h, timeout);
            H.Reap(h, timeout) == if dead == {} then h
                                  else h.(clients := h.clients - dead, watch := h.clients - dead != map[])
  {
    hide H.Dead;
    assert h.clients - {} == h.clients;
  }

  lemma NobodyOffered(h: H.State, msg: Json)
    ensures H.OfferTo(h, {}, msg) == h
  {
    assert H.OfferTo(h, {}, msg).chans == h.chans;
  }

  lemma NoneOffered(h: H.State, k: ClientId, msg: Json)
    requires !H.Accepts(h, k)
    ensures H.OfferTo(h, {k}, msg) == h
  {
    assert H.OfferTo(h, {k}, msg).chans == h.chans;
  }

  lemma NoneAccepted(h: H.State, targets: set<ClientId>, msg: Json)
    requires forall k :: k in targets ==> !H.Accepts(h, k)
    ensures H.OfferTo(h, targets, msg) == h
  {
    assert H.OfferTo(h, targets, msg).chans == h.chans;
  }

  lemma OfferOneMore(h: H.State, done: set<ClientId>, msg: Json, k: ClientId)
    requires k !in done
    ensures H.OfferTo(H.OfferTo(h, done, msg), {k}, msg) == H.OfferTo(h, done + {k}, msg)
  {
    assert H.OfferTo(H.OfferTo(h, done, msg), {k}, msg).chans == H.OfferTo(h, done + {k}, msg).chans;
  }

  lemma StillAccepts(h: H.State, done: set<ClientId>, msg: Json, k: ClientId)
    ensures H.Accepts(H.OfferTo(h, done, msg), k) <==> H.Accepts(h, k)
  {
  }
}
