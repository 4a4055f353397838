/**
 * What each section of the hub (crates/infinity-bridge-host/src/hub.rs) leaves behind: who gets which
 * frame, what a caller of `command` is told, and that nothing else changes.
 */
module HubEffects {
  import opened Base
  import opened Json
  import opened Wire
  import opened Hub
  import HI = HubInvariants

  // ---- Sending ----

  /** A message to one client is the last of its queue, unless the client is gone or its writer is. */
  lemma SendToQueues(h: State, id: ClientId, msg: Json)
    ensures Step(h, DoSendTo(id, msg))
         == if id in h.clients && id in h.chans && h.chans[id].open
            then h.(chans := h.chans[id := Chan(h.chans[id].queue + [msg], true)])
            else h
  {
    var h' := Step(h, DoSendTo(id, msg));
    if id in h.clients && id in h.chans && h.chans[id].open {
      assert h'.chans == h.chans[id := Chan(h.chans[id].queue + [msg], true)];
    }
  }

  /** An event is queued once for every client in the table that accepts, ready or not, and for nobody else. */
  lemma EmitReachesAll(h: State, name: string, data: Json)
    ensures var h' := Step(h, DoEmit(name, data));
            var frame := Obj(map["t" := Str("event"), "name" := Str(name), "data" := data]);
            && h' == h.(chans := h'.chans) && h'.chans.Keys == h.chans.Keys
            && (forall k :: k in h.chans ==>
                  h'.chans[k] == if k in h.clients && h.chans[k].open
                                 then Chan(h.chans[k].queue + [frame], true) else h.chans[k])
  {
    HI.OfferedQueues(h, h.clients.Keys, Obj(map["t" := Str("event"), "name" := Str(name), "data" := data]));
  }

  // ---- Clients ----

  /** A registered client has said nothing yet, counts as seen now, and has an empty queue that accepts. */
  lemma RegisteredClient(h: State, id: ClientId)
    requires id in h.drawn
    ensures Step(h, DoInsert(id))
         == h.(drawn := h.drawn - {id}, clients := h.clients[id := Client(None, h.now, false)],
               chans := h.chans[id := Chan([], true)], watch := true)
    ensures forall k :: k in h.clients && k != id ==> Step(h, DoInsert(id)).clients[k] == h.clients[k]
  {
  }

  /** The reaper removes a client if and only if it has been silent for longer than the timeout. */
  lemma ReapedExactly(h: State, timeout: nat, id: ClientId)
    requires id in h.clients
    ensures id !in Step(h, DoReap(timeout)).clients <==> h.now - h.clients[id].lastSeen > timeout
    ensures id in Step(h, DoReap(timeout)).clients ==> Step(h, DoReap(timeout)).clients[id] == h.clients[id]
    ensures Step(h, DoReap(timeout)) == h.(clients := Step(h, DoReap(timeout)).clients, watch := Step(h, DoReap(timeout)).watch)
  {
  }

  /** Unregistering takes out this client and leaves every other as it was. */
  lemma UnregisteredAlone(h: State, id: ClientId)
    ensures var h' := Step(h, DoUnregister(id));
            && h' == h.(clients := h'.clients, watch := h'.watch)
            && h'.clients.Keys == h.clients.Keys - {id}
            && (forall k :: k in h'.clients ==> h'.clients[k] == h.clients[k])
            && (h'.watch <==> exists k :: k in h.clients && k != id)
  {
    var h' := Step(h, DoUnregister(id));
    if h'.clients != map[] {
      var k :| k in h'.clients;
      assert k in h.clients && k != id;
    }
    if k :| k in h.clients && k != id {
      assert k in h'.clients;
    }
  }

  // ---- Commands ----

  /** The frame of a command says its id, payload and, if it has one, its name. */
  lemma CommandFrame(c: Call)
    ensures CmdFrame(c)
         == if c.name.Some? then Obj(map["t" := Str("cmd"), "id" := Str(c.id), "name" := Str(c.name.value), "payload" := c.payload])
            else Obj(map["t" := Str("cmd"), "id" := Str(c.id), "payload" := c.payload])
  {
    var required := map["t" := Str("cmd"), "id" := Str(c.id), "payload" := c.payload];
    if c.name.Some? {
      assert required + map["name" := Str(c.name.value)] == required["name" := Str(c.name.value)];
    } else {
      assert required + map[] == required;
    }
  }

  /** The waiter is there before the send loop runs, and a later call never takes the place of an earlier one. */
  lemma BeginStores(h: State, id: string, name: Option<string>, payload: Json, timeout: nat)
    requires Enabled(h, DoBegin(id, name, payload, timeout)) && id !in h.pending
    ensures Step(h, DoBegin(id, name, payload, timeout))
         == h.(pending := h.pending[id := |h.calls|],
               calls := h.calls + [Call(id, name, payload, timeout, 0, Inserted, Empty)])
  {
  }

  /** Without clients, or when none of those chosen accepts, the call is over at once and nothing is sent. */
  lemma OfferFails(h: State, n: CallId)
    requires n < |h.calls| && h.calls[n].phase.Inserted?
    requires forall k :: HI.IsTarget(h, k) ==> !(k in h.chans && h.chans[k].open)
    ensures var why := if h.clients == map[] then Failed(NoClients, "no gauges connected — cannot send command")
                       else Failed(Transport, "no gauge connection accepted the command");
            Step(h, DoOffer(n)) == h.(pending := h.pending - {h.calls[n].id},
                                      calls := h.calls[n := h.calls[n].(phase := Finished(why))])
  {
    HI.TargetsMeaning(h);
    hide Targets, AnyReady;
    assert forall k :: k in Targets(h) ==> !Accepts(h, k);
  }

  /** Once sent, a call has the whole timeout before it, and only queues have changed besides. */
  lemma OfferSends(h: State, n: CallId, id: ClientId)
    requires n < |h.calls| && h.calls[n].phase.Inserted?
    requires HI.IsTarget(h, id) && id in h.chans && h.chans[id].open
    ensures var h' := Step(h, DoOffer(n));
            var sent := h.calls[n].(phase := Waiting, deadline := h.now + h.calls[n].timeout);
            && h' == h.(chans := h'.chans, calls := h.calls[n := sent])
            && h'.chans.Keys == h.chans.Keys
            && h'.chans[id] == Chan(h.chans[id].queue + [CmdFrame(h.calls[n])], true)
  {
    HI.TargetsMeaning(h);
    HI.OfferedQueues(h, Targets(h), CmdFrame(h.calls[n]));
    hide Targets, AnyReady, CmdFrame;
    assert id in Targets(h) && Accepts(h, id);
  }

  /** What the caller is told when the await is over. */
  lemma AwaitEnds(h: State, n: CallId)
    requires Enabled(h, DoResolve(n))
    ensures var c := h.calls[n];
            var outcome :=
              match c.slot
              case Filled(ack) =>
                if ack.ok then Answer(if ack.response.Some? then ack.response.value else Null)
                else Failed(Application, if ack.error.Some? then ack.error.value else "unknown error")
              case Dropped => Failed(Transport, "all gauge connections dropped before ack")
              case Empty => Failed(Timeout, "no ack received");
            && Step(h, DoResolve(n)) == h.(calls := h.calls[n := c.(phase := Resolved(outcome))])
            && (c.slot.Empty? ==> c.deadline <= h.now)
  {
  }

  /** Whatever the outcome, it is the one returned, and the entry is gone. */
  lemma CallFinishes(h: State, n: CallId)
    requires Enabled(h, DoFinish(n))
    ensures Step(h, DoFinish(n))
         == h.(pending := h.pending - {h.calls[n].id},
               calls := h.calls[n := h.calls[n].(phase := Finished(h.calls[n].phase.outcome))])
  {
  }

  /** The sender of the call an ack names leaves the table with it; an ack that names none is dropped. */
  lemma AckTaken(h: State, ack: AckPayload)
    ensures Step(h, DoTake(ack))
         == if ack.id in h.pending
            then h.(pending := h.pending - {ack.id}, inHand := h.inHand[h.pending[ack.id] := ack])
            else h
  {
  }

  /** A sender that fires fills the slot of a call still receiving, with any ack, and only once. */
  lemma AckFires(h: State, n: CallId)
    requires n in h.inHand && n < |h.calls|
    ensures Step(h, DoDeliver(n))
         == if (h.calls[n].phase.Inserted? || h.calls[n].phase.Waiting?) && h.calls[n].slot.Empty?
            then h.(inHand := h.inHand - {n}, calls := h.calls[n := h.calls[n].(slot := Filled(h.inHand[n]))])
            else h.(inHand := h.inHand - {n})
  {
  }

  /** A call whose sender is in hand is over, with the outcome of that ack, once it has fired. */
  lemma FiredAckEnds(h: State, n: CallId)
    requires n in h.inHand && n < |h.calls| && h.calls[n].phase.Waiting? && h.calls[n].slot.Empty?
    ensures var ack, fired := h.inHand[n], Step(h, DoDeliver(n));
            && fired == h.(inHand := h.inHand - {n}, calls := h.calls[n := h.calls[n].(slot := Filled(ack))])
            && Enabled(fired, DoResolve(n))
            && Step(fired, DoResolve(n)).calls[n].phase
            == Resolved(if ack.ok then Answer(if ack.response.Some? then ack.response.value else Null)
                        else Failed(Application, if ack.error.Some? then ack.error.value else "unknown error"))
  {
    AckFires(h, n);
    var fired := Step(h, DoDeliver(n));
    assert Resolution(fired, fired.calls[n]).Some?;
    AwaitEnds(fired, n);
  }

  /**
   * How a `command` can end, in every run: with the answer or the error of the first ack for its id;
   * with a timeout, having received nothing up to its deadline; or, if it was never sent, for want of
   * clients or of one that accepts. It never ends because its sender was dropped.
   */
  lemma HowCommandsEnd(run: seq<HI.History>, inputs: seq<Input>, k: nat, n: CallId)
    requires HI.IsRun(run, inputs) && k < |run| && n < |run[k].hub.calls| && run[k].hub.calls[n].phase.Finished?
    ensures |run[k].seen| == |run[k].hub.calls|
    ensures var c, seen := run[k].hub.calls[n], run[k].seen[n];
            match c.phase.outcome
            case Answer(v) =>
              HI.Waited(run, k, n) && seen != [] && seen[0].ok && v == if seen[0].response.Some? then seen[0].response.value else Null
            case Failed(Application, error) =>
              HI.Waited(run, k, n) && seen != [] && !seen[0].ok
              && error == if seen[0].error.Some? then seen[0].error.value else "unknown error"
            case Failed(Timeout, _) => HI.Waited(run, k, n) && c.slot.Empty? && c.deadline <= run[k].hub.now
            case Failed(NoClients, _) => !HI.Waited(run, k, n)
            case Failed(Transport, error) => !HI.Waited(run, k, n) && error == "no gauge connection accepted the command"
  {
    HI.WaiterExactness(run, inputs, k, n);
    hide HI.IsRun, HI.Waited;
  }
}
