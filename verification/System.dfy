/**
 * Host, relays and WASM modules together: every interleaving of their handlers with connections
 * being accepted, opened, lost and reaped, messages being delayed, and timers firing.
 *
 * A WebSocket direction is a FIFO queue that delivers a frame at most once. A socket has its queue
 * towards the host from the moment the relay creates it, whether or not the host has registered a
 * client for it; the queue towards a relay is the hub's channel of that client. The CommBus of a
 * relay may lose, delay, reorder and repeat messages, so it is modelled by the sets of messages ever
 * put on it.
 */
module System {
  import opened Base
  import opened Json
  import opened Wire
  import opened RequestIds
  import Hub
  import HI = HubInvariants
  import Server
  import R = Relay
  import RH = RelayHistory
  import W = WasmBridge

  type RelayId = nat
  type ClientId = Hub.ClientId

  /** One socket of one relay. */
  datatype Link = Link(relay: RelayId, socket: R.SocketId)

  /** One registered connection: its socket, and whether its read loop still runs. */
  datatype Conn = Conn(link: Link, reading: bool)

  datatype Bus = Bus(toWasm: set<Json>, fromWasm: set<Json>)

  /** One run of the command handler: the request it answered, what it was given and what it answered. */
  datatype Handled = Handled(
    relay: RelayId, requestId: string, name: Option<string>, payload: Json, answer: W.Answer)

  /** A command message reaching a relay. */
  datatype Arrival = Arrival(relay: RelayId, id: string)

  datatype State = State(
    host: HI.History,
    relays: map<RelayId, RH.History>,
    buses: map<RelayId, Bus>,
    ups: map<Link, seq<Json>>,      // frames sent and not yet read by the host
    conns: map<ClientId, Conn>,
    handled: set<Handled>,
    reached: multiset<Arrival>)

  datatype Input =
    | HostDoes(host: Hub.Input)                 // callers, timeouts, the reaper, writers ending, time
    | Pings(client: ClientId, ts: Option<U64>)
    | Accepts(client: ClientId, link: Link)
    | RelayDoes(relay: RelayId, input: R.Input) // timers, bind continuation, sockets, rejections
    | Arrives(client: ClientId, clock: int, onThrows: bool)
    | WasmGets(relay: RelayId, envelope: Json, answer: W.Answer)
    | WasmEmits(relay: RelayId, event: EventPayload)
    | WasmReaches(relay: RelayId, msg: Json)
    | HostReads(client: ClientId)
    | HostLeaves(client: ClientId)
    | HostUnregisters(client: ClientId)

  predicate FromHost(i: Hub.Input) {
    Server.FromCaller(i) || i.DoReap? || i.TimePasses? || i.WriterEnds?
  }

  predicate FromRelay(i: R.Input) {
    i.Continuation? || i.TimerFires? || i.SocketOpens? || i.SocketChanges? || i.SocketErrors? || i.SocketCloses?
    || i.CallRejects? || i.TimePasses? || i.Destroyed?
  }

  function UpOf(s: State, l: Link): seq<Json> {
    if l in s.ups then s.ups[l] else []
  }

  /** The next message on its way to the relay over a connection. */
  predicate CanArrive(s: State, c: ClientId) {
    c in s.conns && Hub.Enabled(s.host.hub, Hub.WriterSends(c))
  }

  function RelayInput(s: State, i: Input): R.Input
    requires i.Arrives? ==> CanArrive(s, i.client)
    requires i.Arrives? || i.RelayDoes? || i.WasmReaches?
  {
    match i
    case Arrives(c, clock, onThrows) =>
      R.HostSends(s.conns[c].link.socket, s.host.hub.chans[c].queue[0], clock, onThrows)
    case RelayDoes(_, j) => j
    case WasmReaches(_, msg) => R.WasmSends(msg)
  }

  /**
   * A client is registered once for a socket, at any time after the relay created it: before the
   * relay sees it open, long after, or when it is already lost again. Its id was drawn before.
   */
  ghost predicate Enabled(s: State, i: Input) {
    match i
    case HostDoes(j) => FromHost(j) && Hub.Enabled(s.host.hub, j)
    case Pings(c, _) => true
    case Accepts(c, l) =>
      && c in s.host.hub.drawn
      && l.relay in s.relays && l.socket < |s.relays[l.relay].relay.sockets|
      && (forall b :: b in s.conns ==> s.conns[b].link != l)
    case RelayDoes(r, j) => r in s.relays && FromRelay(j) && R.Enabled(s.relays[r].relay, j)
    case Arrives(c, _, _) =>
      && CanArrive(s, c) && s.conns[c].link.relay in s.relays
      && R.Enabled(s.relays[s.conns[c].link.relay].relay, RelayInput(s, i))
    case WasmGets(r, env, _) => r in s.buses && env in s.buses[r].toWasm
    case WasmEmits(r, e) => r in s.buses && e.name != READY_EVENT
    case WasmReaches(r, msg) =>
      r in s.relays && r in s.buses && msg in s.buses[r].fromWasm && R.Enabled(s.relays[r].relay, R.WasmSends(msg))
    case HostReads(c) => c in s.conns && s.conns[c].reading && UpOf(s, s.conns[c].link) != []
    case HostLeaves(c) => c in s.conns
    case HostUnregisters(c) => c in s.conns && !s.conns[c].reading
  }

  /** The frames a handler put on one of its sockets. */
  function FramesVia(out: seq<R.Out>, k: R.SocketId): seq<Json> {
    if out == [] then []
    else
      var rest := FramesVia(out[..|out| - 1], k);
      match out[|out| - 1]
      case Send(via, frame, _) => if via == Some(k) then rest + [frame] else rest
      case Call(_) => rest
  }

  /** The frames of one handler go onto the relay's sockets, n of them by now. */
  function Carry(s: State, r: RelayId, out: seq<R.Out>, n: nat): map<Link, seq<Json>> {
    map l | l in s.ups.Keys + (set k | 0 <= k < n :: Link(r, k)) ::
      if l.relay == r then UpOf(s, l) + FramesVia(out, l.socket) else UpOf(s, l)
  }

  function CallsIn(out: seq<R.Out>): set<Json> {
    set k | 0 <= k < |out| && out[k].Call? :: out[k].envelope
  }

  /** One handler of one relay: its sends go onto its sockets, its calls onto its CommBus. */
  function RelayStep(s: State, r: RelayId, i: R.Input): State
    requires r in s.relays && r in s.buses && R.Enabled(s.relays[r].relay, i)
  {
    var h := RH.Advance(s.relays[r], i);
    s.(relays := s.relays[r := h],
       buses := s.buses[r := s.buses[r].(toWasm := s.buses[r].toWasm + CallsIn(h.relay.out))],
       ups := Carry(s, r, h.relay.out, |h.relay.sockets|))
  }

  function HostStep(s: State, i: Hub.Input): State
    requires Hub.Enabled(s.host.hub, i)
  {
    s.(host := HI.Advance(s.host, i))
  }

  /** Counting a command message that reaches a relay. */
  function Reach(s: State, r: RelayId, msg: Json): State {
    match (msg.Tag(), msg.Get("id"))
    case (Some(t), Some(Str(id))) =>
      if t == "cmd" then s.(reached := s.reached + multiset{Arrival(r, id)}) else s
    case _ => s
  }

  function Arrive(s: State, c: ClientId, clock: int, onThrows: bool): State
    requires CanArrive(s, c)
    requires s.conns[c].link.relay in s.relays && s.conns[c].link.relay in s.buses
    requires R.Enabled(s.relays[s.conns[c].link.relay].relay, RelayInput(s, Arrives(c, clock, onThrows)))
  {
    var i, r := RelayInput(s, Arrives(c, clock, onThrows)), s.conns[c].link.relay;
    var s1 := HostStep(s, Hub.WriterSends(c));
    RelayStep(Reach(s1, r, i.msg), r, i)
  }

  function WasmGet(s: State, r: RelayId, env: Json, answer: W.Answer): State
    requires r in s.buses
  {
    match W.Unwrap(env)
    case Some(Request(q, Command(name, payload))) =>
      s.(handled := s.handled + {Handled(r, q, name, payload, answer)},
         buses := s.buses[r := s.buses[r].(fromWasm := s.buses[r].fromWasm + {W.Response(q, answer)})])
    case _ => s
  }

  /** The frame counts as a sign of life first, then does what it says. */
  function HostRead(s: State, c: ClientId): State
    requires c in s.conns && UpOf(s, s.conns[c].link) != []
  {
    var l := s.conns[c].link;
    var frame := UpOf(s, l)[0];
    var s1 := HostStep(s.(ups := s.ups[l := UpOf(s, l)[1..]]), Hub.DoTouch(c));
    match Server.TextInput(c, frame)
    case None => s1
    case Some(i) => HostStep(s1, i)
  }

  function Step(s: State, i: Input): State
    requires Enabled(s, i) && s.relays.Keys == s.buses.Keys
  {
    match i
    case HostDoes(j) => HostStep(s, j)
    case Pings(c, ts) => HostStep(s, Hub.DoSendTo(c, Print(Ping(ts))))
    case Accepts(c, l) => HostStep(s, Hub.DoInsert(c)).(conns := s.conns[c := Conn(l, true)])
    case RelayDoes(r, j) => RelayStep(s, r, j)
    case Arrives(c, clock, onThrows) => Arrive(s, c, clock, onThrows)
    case WasmGets(r, env, answer) => WasmGet(s, r, env, answer)
    case WasmEmits(r, e) =>
      s.(buses := s.buses[r := s.buses[r].(fromWasm := s.buses[r].fromWasm + {Print(Event(e))})])
    case WasmReaches(r, msg) => RelayStep(s, r, R.WasmSends(msg))
    case HostReads(c) => HostRead(s, c)
    case HostLeaves(c) => s.(conns := s.conns[c := s.conns[c].(reading := false)])
    case HostUnregisters(c) => HostStep(s, Hub.DoUnregister(c))
  }

  /** No connections, no calls; every relay has run `init`, with whatever luck. */
  ghost predicate Initial(s: State) {
    && s.host == HI.History(Hub.INITIAL, [])
    && s.ups == map[] && s.conns == map[] && s.handled == {} && s.reached == multiset{}
    && s.relays.Keys == s.buses.Keys
    && (forall r :: r in s.relays ==>
          s.buses[r] == Bus({}, {}) && exists cfg, capacity :: RH.Initial(s.relays[r], cfg, capacity))
  }

  ghost predicate IsRun(run: seq<State>, inputs: seq<Input>) {
    && |run| == |inputs| + 1
    && Initial(run[0])
    && forall k :: 0 <= k < |inputs| ==>
         && run[k].relays.Keys == run[k].buses.Keys
         && Enabled(run[k], inputs[k]) && run[k + 1] == Step(run[k], inputs[k])
  }

  lemma StepKeepsRelays(s: State, i: Input)
    requires s.relays.Keys == s.buses.Keys && Enabled(s, i)
    ensures Step(s, i).relays.Keys == s.relays.Keys && Step(s, i).buses.Keys == s.buses.Keys
  {
    hide Print, RH.Advance, HI.Advance, Server.TextInput, W.Unwrap, W.Response, Carry, CallsIn;
  }
}
