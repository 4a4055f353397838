/**
 * The host hub (crates/infinity-bridge-host/src/hub.rs) as a value: the client table with one
 * outgoing channel per client, the connection watch, and the table of one-shot senders that
 * `command` futures wait on. Each function is one section of code run under one lock.
 */
module Hub {
  import opened Base
  import opened Json
  import opened Wire

  type ClientId = nat
  type CallId = nat

  datatype Client = Client(hello: Option<HelloPayload>, lastSeen: nat, ready: bool)

  /** The unbounded queue behind a client's sender; it accepts while its receiver exists. */
  datatype Chan = Chan(queue: seq<Json>, open: bool)

  datatype ErrorKind = Transport | Timeout | Application | NoClients

  datatype Outcome = Answer(value: Json) | Failed(kind: ErrorKind, message: string)

  const NO_GAUGES := Failed(NoClients, "no gauges connected — cannot send command")
  const NOT_ACCEPTED := Failed(Transport, "no gauge connection accepted the command")
  const SENDER_DROPPED := Failed(Transport, "all gauge connections dropped before ack")
  const TIMED_OUT := Failed(Timeout, "no ack received")

  function OutcomeOf(ack: AckPayload): Outcome {
    if ack.ok then Answer(ack.Answer()) else Failed(Application, ack.error.GetOr("unknown error"))
  }

  /** The receiving end of a call's one-shot channel. */
  datatype Slot = Empty | Filled(ack: AckPayload) | Dropped

  datatype Phase =
    | Inserted                    // waiter registered, not yet sent
    | Waiting                     // sent, awaiting the ack
    | Resolved(outcome: Outcome)  // await over, table not yet cleaned
    | Finished(outcome: Outcome)
  {
    predicate Receiving() {
      Inserted? || Waiting?
    }
  }

  /** `deadline` is set when the command has been sent. */
  datatype Call = Call(
    id: string, name: Option<string>, payload: Json, timeout: nat, deadline: nat, phase: Phase, slot: Slot)

  datatype State = State(
    nextId: ClientId,
    drawn: set<ClientId>,               // ids handed out whose client is yet to be inserted
    clients: map<ClientId, Client>,
    chans: map<ClientId, Chan>,
    watch: bool,
    pending: map<string, CallId>,       // command id to the call whose sender is stored
    calls: seq<Call>,                   // every `command` future ever started
    inHand: map<CallId, AckPayload>,    // senders taken out by `dispatch_ack`, about to fire
    now: nat)

  const INITIAL := State(1, {}, map[], map[], false, map[], [], map[], 0)

  // ---- Clients ----

  /** The id is drawn before the clients lock is taken. */
  function Draw(h: State): State {
    h.(nextId := h.nextId + 1, drawn := h.drawn + {h.nextId})
  }

  function Insert(h: State, id: ClientId): State {
    h.(drawn := h.drawn - {id},
       clients := h.clients[id := Client(None, h.now, false)],
       chans := h.chans[id := Chan([], true)],
       watch := true)
  }

  /** The id was handed out and its client inserted, at some time. */
  predicate Used(h: State, id: ClientId) {
    id < h.nextId && id !in h.drawn
  }

  function SetHello(h: State, id: ClientId, hello: HelloPayload): State {
    if id in h.clients then h.(clients := h.clients[id := h.clients[id].(hello := Some(hello))]) else h
  }

  function Unregister(h: State, id: ClientId): State {
    var clients := h.clients - {id};
    h.(clients := clients, watch := clients != map[])
  }

  function Touch(h: State, id: ClientId): State {
    if id in h.clients then h.(clients := h.clients[id := h.clients[id].(lastSeen := h.now)]) else h
  }

  function SetReady(h: State, id: ClientId, ready: bool): State {
    if id in h.clients then h.(clients := h.clients[id := h.clients[id].(ready := ready)]) else h
  }

  function Dead(h: State, timeout: nat): set<ClientId> {
    set id | id in h.clients && h.now > h.clients[id].lastSeen + timeout
  }

  function Reap(h: State, timeout: nat): State {
    var dead := Dead(h, timeout);
    var clients := h.clients - dead;
    h.(clients := clients, watch := if dead == {} then h.watch else clients != map[])
  }

  // ---- Sending ----

  predicate Accepts(h: State, id: ClientId) {
    id in h.chans && h.chans[id].open
  }

  /** One message offered to each of the given clients' channels. */
  function OfferTo(h: State, targets: set<ClientId>, msg: Json): State {
    h.(chans := map id | id in h.chans ::
         if id in targets && h.chans[id].open then h.chans[id].(queue := h.chans[id].queue + [msg]) else h.chans[id])
  }

  /** `send_to` fails for a client that is gone or whose writer has ended. */
  predicate CanSendTo(h: State, id: ClientId) {
    id in h.clients && Accepts(h, id)
  }

  function SendTo(h: State, id: ClientId, msg: Json): State {
    if CanSendTo(h, id) then OfferTo(h, {id}, msg) else h
  }

  function Emit(h: State, name: string, data: Json): State {
    OfferTo(h, h.clients.Keys, Print(Event(EventPayload(name, data))))
  }

  // ---- Commands ----

  function CmdFrame(c: Call): Json {
    Print(Cmd(CmdPayload(c.id, c.name, c.payload)))
  }

  function SetCall(h: State, n: CallId, c: Call): State
    requires n < |h.calls|
  {
    h.(calls := h.calls[n := c])
  }

  /** Inserting over an entry drops the sender that was there. */
  function Begin(h: State, id: string, name: Option<string>, payload: Json, timeout: nat): State {
    var h1 := if id in h.pending && h.pending[id] < |h.calls| && h.calls[h.pending[id]].slot.Empty?
              then SetCall(h, h.pending[id], h.calls[h.pending[id]].(slot := Dropped)) else h;
    h1.(pending := h1.pending[id := |h1.calls|],
        calls := h1.calls + [Call(id, name, payload, timeout, 0, Inserted, Empty)])
  }

  predicate AnyReady(h: State) {
    exists id :: id in h.clients && h.clients[id].ready
  }

  /** Ready clients if there are any, else every client. */
  function Targets(h: State): set<ClientId> {
    if AnyReady(h) then set id | id in h.clients && h.clients[id].ready else h.clients.Keys
  }

  function FailFast(h: State, n: CallId, outcome: Outcome): State
    requires n < |h.calls|
  {
    SetCall(h, n, h.calls[n].(phase := Finished(outcome))).(pending := h.pending - {h.calls[n].id})
  }

  /** The send loop under the clients lock. */
  function Offer(h: State, n: CallId): State
    requires n < |h.calls|
  {
    var c := h.calls[n];
    if h.clients == map[] then FailFast(h, n, NO_GAUGES)
    else if forall id :: id in Targets(h) ==> !Accepts(h, id) then FailFast(h, n, NOT_ACCEPTED)
    else SetCall(OfferTo(h, Targets(h), CmdFrame(c)), n, c.(phase := Waiting, deadline := h.now + c.timeout))
  }

  /** How the await ends; the ack wins over the deadline when both are there. */
  function Resolution(h: State, c: Call): Option<Outcome> {
    if !c.phase.Waiting? then None
    else match c.slot
      case Filled(ack) => Some(OutcomeOf(ack))
      case Dropped => Some(SENDER_DROPPED)
      case Empty => if c.deadline <= h.now then Some(TIMED_OUT) else None
  }

  function Resolve(h: State, n: CallId): State
    requires n < |h.calls| && Resolution(h, h.calls[n]).Some?
  {
    SetCall(h, n, h.calls[n].(phase := Resolved(Resolution(h, h.calls[n]).value)))
  }

  function Finish(h: State, n: CallId): State
    requires n < |h.calls| && h.calls[n].phase.Resolved?
  {
    SetCall(h, n, h.calls[n].(phase := Finished(h.calls[n].phase.outcome)))
      .(pending := h.pending - {h.calls[n].id})
  }

  // ---- Acks ----

  /** First half of `dispatch_ack`: the sender leaves the table. */
  function Take(h: State, ack: AckPayload): State {
    if ack.id in h.pending
    then h.(pending := h.pending - {ack.id}, inHand := h.inHand[h.pending[ack.id] := ack]) else h
  }

  /** Second half: firing it does nothing if the receiver is gone. */
  function Deliver(h: State, n: CallId): State
    requires n in h.inHand
  {
    var h1 := h.(inHand := h.inHand - {n});
    if n < |h.calls| && h.calls[n].phase.Receiving() && h.calls[n].slot.Empty?
    then SetCall(h1, n, h.calls[n].(slot := Filled(h.inHand[n]))) else h1
  }

  // ---- Steps ----

  datatype Input =
    | DoDraw
    | DoInsert(client: ClientId)
    | DoHello(client: ClientId, hello: HelloPayload)
    | DoUnregister(client: ClientId)
    | DoTouch(client: ClientId)
    | DoReap(timeout: nat)
    | DoReady(client: ClientId, ready: bool)
    | DoSendTo(client: ClientId, msg: Json)
    | DoEmit(name: string, data: Json)
    | DoBegin(id: string, cmdName: Option<string>, payload: Json, timeout: nat)
    | DoOffer(call: CallId)
    | DoResolve(call: CallId)
    | DoFinish(call: CallId)
    | DoTake(ack: AckPayload)
    | DoDeliver(call: CallId)
    | WriterSends(client: ClientId)
    | WriterEnds(client: ClientId)
    | TimePasses(ms: nat)

  predicate Started(h: State, id: string) {
    exists n: CallId :: n < |h.calls| && h.calls[n].id == id
  }

  /** Command ids are fresh (random UUIDs); futures run their sections in order. */
  predicate Enabled(h: State, i: Input) {
    match i
    case DoInsert(id) => id in h.drawn
    case DoBegin(id, _, _, _) => !Started(h, id)
    case DoOffer(n) => n < |h.calls| && h.calls[n].phase.Inserted?
    case DoResolve(n) => n < |h.calls| && Resolution(h, h.calls[n]).Some?
    case DoFinish(n) => n < |h.calls| && h.calls[n].phase.Resolved?
    case DoDeliver(n) => n in h.inHand
    case WriterSends(k) => k in h.chans && h.chans[k].open && h.chans[k].queue != []
    case WriterEnds(k) => k in h.chans
    case _ => true
  }

  function Step(h: State, i: Input): State
    requires Enabled(h, i)
  {
    match i
    case DoDraw => Draw(h)
    case DoInsert(k) => Insert(h, k)
    case DoHello(k, hello) => SetHello(h, k, hello)
    case DoUnregister(k) => Unregister(h, k)
    case DoTouch(k) => Touch(h, k)
    case DoReap(timeout) => Reap(h, timeout)
    case DoReady(k, ready) => SetReady(h, k, ready)
    case DoSendTo(k, msg) => SendTo(h, k, msg)
    case DoEmit(name, data) => Emit(h, name, data)
    case DoBegin(id, name, payload, timeout) => Begin(h, id, name, payload, timeout)
    case DoOffer(n) => Offer(h, n)
    case DoResolve(n) => Resolve(h, n)
    case DoFinish(n) => Finish(h, n)
    case DoTake(ack) => Take(h, ack)
    case DoDeliver(n) => Deliver(h, n)
    case WriterSends(k) => h.(chans := h.chans[k := h.chans[k].(queue := h.chans[k].queue[1..])])
    case WriterEnds(k) => h.(chans := h.chans[k := h.chans[k].(open := false)])
    case TimePasses(ms) => h.(now := h.now + ms)
  }
}
