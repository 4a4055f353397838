/**
 * Connections on the host (crates/infinity-bridge-host/src/server.rs): for each socket a read
 * loop, a writer and a ping task, racing with each other and with every other connection.
 */
module Server {
  import opened Base
  import opened Json
  import opened Wire
  import Hub
  import HI = HubInvariants

  type ClientId = Hub.ClientId

  /** What the read loop asks of the hub for one decoded message. */
  function Asks(id: ClientId, wire: WireMsg): Option<Hub.Input> {
    match wire
    case Hello(hello) => Some(Hub.DoHello(id, hello))
    case Ack(ack) => Some(Hub.DoTake(ack))
    case Event(e) => if e.name == READY_EVENT then Some(Hub.DoReady(id, ReadyValue(e.data))) else None
    case Pong(_) => None
    case Cmd(_) => None  // fanned out to event subscribers, like any other event
    case Ping(ts) => Some(Hub.DoSendTo(id, Print(Pong(ts))))
  }

  function TextInput(id: ClientId, frame: Json): (r: Option<Hub.Input>)
    ensures r.Some? ==> r.value.DoHello? || r.value.DoTake? || r.value.DoReady? || r.value.DoSendTo?
  {
    match Parse(frame)
    case None => None
    case Some(wire) => Asks(id, wire)
  }

  /** One text frame: any frame is a sign of life, even one that does not decode. */
  function OnText(h: Hub.State, id: ClientId, frame: Json): Hub.State {
    var seen := Hub.Touch(h, id);
    match TextInput(id, frame)
    case None => seen
    case Some(i) => Hub.Step(seen, i)
  }

  /** Where `handle_socket` is: in the read loop, then through its teardown. */
  datatype Reader = Reading | Left | Unregistered | Aborted | Closed

  /** Where the ping task is: waiting for a tick, between reaping and sending, or over. */
  datatype PingTask = Sleeping | Probing | Stopped

  datatype Conn = Conn(
    reader: Reader,
    ping: PingTask,
    signals: nat,            // times the reaped signal was fired
    outTx: bool,             // the sender `handle_socket` itself holds
    lastTick: nat,
    gone: Option<nat>,       // when the client left the hub's table
    outstanding: seq<nat>)   // send times of pings whose pong has not been read

  datatype Config = Config(interval: nat, timeout: nat)

  datatype State = State(cfg: Config, hub: Hub.State, conns: map<ClientId, Conn>)

  function Start(cfg: Config): State {
    State(cfg, Hub.INITIAL, map[])
  }

  datatype Input =
    | Accept(client: ClientId)
    | Tick(client: ClientId)
    | Probe(client: ClientId, ts: Option<U64>)
    | Read(client: ClientId, frame: Json)
    | Leave(client: ClientId)
    | Unregister(client: ClientId)
    | Abort(client: ClientId)
    | DropTx(client: ClientId)
    | Writer(input: Hub.Input)
    | Caller(input: Hub.Input)
    | TimePasses(ms: nat)

  predicate FromWriter(i: Hub.Input) {
    i.WriterSends? || i.WriterEnds?
  }

  predicate FromCaller(i: Hub.Input) {
    i.DoDraw? || i.DoEmit? || i.DoBegin? || i.DoOffer? || i.DoResolve? || i.DoFinish? || i.DoDeliver?
  }

  /** Time does not pass a due tick, nor while a ping task is between its two steps. */
  predicate TicksOnTime(s: State, ms: nat) {
    forall c :: c in s.conns ==>
      && (s.conns[c].ping.Sleeping? ==> s.hub.now + ms <= s.conns[c].lastTick + s.cfg.interval)
      && (s.conns[c].ping.Probing? ==> ms == 0)
  }

  ghost predicate Enabled(s: State, i: Input) {
    match i
    case Accept(c) => c in s.hub.drawn
    case Tick(c) => c in s.conns && s.conns[c].ping.Sleeping? && s.hub.now >= s.conns[c].lastTick + s.cfg.interval
    case Probe(c, _) => c in s.conns && s.conns[c].ping.Probing?
    case Read(c, _) => c in s.conns && s.conns[c].reader.Reading?
    case Leave(c) => c in s.conns && s.conns[c].reader.Reading?
    case Unregister(c) => c in s.conns && s.conns[c].reader.Left?
    case Abort(c) => c in s.conns && s.conns[c].reader.Unregistered?
    case DropTx(c) => c in s.conns && s.conns[c].reader.Aborted?
    case Writer(j) => FromWriter(j) && Hub.Enabled(s.hub, j)
    case Caller(j) => FromCaller(j) && Hub.Enabled(s.hub, j)
    case TimePasses(ms) => TicksOnTime(s, ms)
  }

  function Signal(c: Conn): Conn {
    c.(signals := c.signals + 1, ping := Stopped)
  }

  /** Notes for every client that a step removed from the hub's table when that was. */
  function NoteGone(conns: map<ClientId, Conn>, before: Hub.State, after: Hub.State): map<ClientId, Conn> {
    map c | c in conns ::
      if c in before.clients && c !in after.clients then conns[c].(gone := Some(after.now)) else conns[c]
  }

  function OnTick(s: State, c: ClientId): State
    requires c in s.conns
  {
    var hub := Hub.Reap(s.hub, s.cfg.timeout);
    var conns := NoteGone(s.conns, s.hub, hub);
    var conn := conns[c].(lastTick := s.hub.now);
    s.(hub := hub,
       conns := conns[c := if c in Hub.Dead(s.hub, s.cfg.timeout) then Signal(conn) else conn.(ping := Probing)])
  }

  function OnProbe(s: State, c: ClientId, ts: Option<U64>): State
    requires c in s.conns
  {
    var conn := s.conns[c];
    if Hub.CanSendTo(s.hub, c) then
      s.(hub := Hub.SendTo(s.hub, c, Print(Ping(ts))),
         conns := s.conns[c := conn.(ping := Sleeping, outstanding := conn.outstanding + [s.hub.now])])
    else
      s.(conns := s.conns[c := Signal(conn)])
  }

  predicate IsPong(frame: Json) {
    Parse(frame).Some? && Parse(frame).value.Pong?
  }

  function OnRead(s: State, c: ClientId, frame: Json): State
    requires c in s.conns
  {
    var conn := s.conns[c];
    s.(hub := OnText(s.hub, c, frame),
       conns := if IsPong(frame) && conn.outstanding != []
                then s.conns[c := conn.(outstanding := conn.outstanding[1..])] else s.conns)
  }

  function SetConn(s: State, c: ClientId, conn: Conn): State {
    s.(conns := s.conns[c := conn])
  }

  function OnUnregister(s: State, c: ClientId): State
    requires c in s.conns
  {
    var hub := Hub.Unregister(s.hub, c);
    var conns := NoteGone(s.conns, s.hub, hub);
    s.(hub := hub, conns := conns[c := conns[c].(reader := Unregistered)])
  }

  function Step(s: State, i: Input): State
    requires Enabled(s, i)
  {
    match i
    case Accept(c) =>
      State(s.cfg, Hub.Insert(s.hub, c), s.conns[c := Conn(Reading, Sleeping, 0, true, s.hub.now, None, [])])
    case Tick(c) => OnTick(s, c)
    case Probe(c, ts) => OnProbe(s, c, ts)
    case Read(c, frame) => OnRead(s, c, frame)
    case Leave(c) => SetConn(s, c, s.conns[c].(reader := Left))
    case Unregister(c) => OnUnregister(s, c)
    case Abort(c) => SetConn(s, c, s.conns[c].(reader := Aborted, ping := Stopped))
    case DropTx(c) => SetConn(s, c, s.conns[c].(reader := Closed, outTx := false))
    case Writer(j) => s.(hub := Hub.Step(s.hub, j))
    case Caller(j) => s.(hub := Hub.Step(s.hub, j))
    case TimePasses(ms) => s.(hub := s.hub.(now := s.hub.now + ms))
  }

  ghost predicate IsRun(run: seq<State>, inputs: seq<Input>, cfg: Config) {
    && |run| == |inputs| + 1
    && run[0] == Start(cfg)
    && forall k :: 0 <= k < |inputs| ==> Enabled(run[k], inputs[k]) && run[k + 1] == Step(run[k], inputs[k])
  }

  // ---- No zombie connections ----

  /** Handles on the queue feeding the writer of c: the hub's and the connection's own. */
  function Senders(s: State, c: ClientId): nat
    requires c in s.conns
  {
    (if c in s.hub.clients then 1 else 0) + (if s.conns[c].outTx then 1 else 0)
  }

  /** The signal is still to come, and from the connection's own next tick at the latest. */
  ghost predicate SignalDue(s: State, c: Conn) {
    match c.ping
    case Sleeping => c.gone.Some? && c.lastTick <= c.gone.value
    case Probing => c.gone.Some? && c.lastTick <= c.gone.value + s.cfg.interval
    case Stopped => false
  }

  ghost predicate ConnOk(s: State, id: ClientId, c: Conn) {
    && Hub.Used(s.hub, id)
    && (id in s.hub.clients ==> c.reader.Reading? || c.reader.Left?)
    && (id in s.hub.clients ==> c.gone.None?)
    && (id !in s.hub.clients && c.reader.Reading? ==> c.signals == 1 || SignalDue(s, c))
    && c.signals <= 1
    && (c.signals == 1 ==> c.ping.Stopped?)
    && (c.ping.Stopped? ==> c.signals == 1 || c.reader.Aborted? || c.reader.Closed?)
    && (c.ping.Sleeping? ==> s.hub.now <= c.lastTick + s.cfg.interval)
    && (c.ping.Probing? ==> s.hub.now == c.lastTick)
    && c.lastTick <= s.hub.now
    && (c.outTx <==> !c.reader.Closed?)
  }

  /** A client that the reaper spared at its last tick was heard of recently enough. */
  ghost predicate SeenOk(s: State, id: ClientId, c: Conn) {
    id in s.hub.clients && !c.ping.Stopped? ==> c.lastTick <= s.hub.clients[id].lastSeen + s.cfg.timeout
  }

  ghost predicate ServerOk(s: State) {
    && (forall id :: id in s.conns ==> ConnOk(s, id, s.conns[id]) && SeenOk(s, id, s.conns[id]))
    && (forall id :: id in s.hub.clients ==> id in s.conns && s.hub.clients[id].lastSeen <= s.hub.now)
    && (forall id :: id in s.hub.drawn ==> id < s.hub.nextId)
  }

  /** What the server needs to know about a change of the hub: the same clients, seen no earlier. */
  ghost predicate SameClients(h: Hub.State, h': Hub.State) {
    && h'.clients.Keys == h.clients.Keys && h'.now == h.now
    && h.nextId <= h'.nextId && (forall id :: id in h'.drawn ==> id in h.drawn || h.nextId <= id < h'.nextId)
    && (forall id :: id in h.clients && h.clients[id].lastSeen <= h.now ==>
          h.clients[id].lastSeen <= h'.clients[id].lastSeen <= h.now)
  }

  lemma HubStepKeepsClients(h: Hub.State, i: Hub.Input)
    requires Hub.Enabled(h, i) && (FromCaller(i) || FromWriter(i))
    ensures SameClients(h, Hub.Step(h, i))
  {
    if !i.DoDraw? {
      HI.ElsewhereClients(h, i);
      hide Hub.Step, Hub.Enabled;
    }
  }

  /** Nothing about presence or last contact changed. */
  ghost predicate SameSeen(h: Hub.State, h': Hub.State) {
    && h'.clients.Keys == h.clients.Keys && h'.nextId == h.nextId && h'.drawn == h.drawn && h'.now == h.now
    && (forall id :: id in h.clients ==> h'.clients[id].lastSeen == h.clients[id].lastSeen)
  }

  lemma HelloKeepsSeen(h: Hub.State, id: ClientId, hello: HelloPayload)
    ensures SameSeen(h, Hub.SetHello(h, id, hello))
  {
  }

  lemma ReadyKeepsSeen(h: Hub.State, id: ClientId, ready: bool)
    ensures SameSeen(h, Hub.SetReady(h, id, ready))
  {
  }

  lemma TextAfterTouch(h: Hub.State, id: ClientId, frame: Json)
    ensures SameSeen(Hub.Touch(h, id), OnText(h, id, frame))
  {
    hide TextInput, Hub.Touch, Hub.SetHello, Hub.SetReady, Hub.SendTo;
    var seen := Hub.Touch(h, id);
    match TextInput(id, frame)
    case None =>
    case Some(DoHello(k, hello)) => HelloKeepsSeen(seen, k, hello);
    case Some(DoTake(ack)) =>
    case Some(DoReady(k, ready)) => ReadyKeepsSeen(seen, k, ready);
    case Some(DoSendTo(k, msg)) => OfferKeeps(seen, k, msg);
  }

  lemma OfferKeeps(h: Hub.State, id: ClientId, msg: Json)
    ensures Hub.SendTo(h, id, msg) == h.(chans := Hub.SendTo(h, id, msg).chans)
  {
  }

  lemma TextKeepsClients(h: Hub.State, id: ClientId, frame: Json)
    ensures SameClients(h, OnText(h, id, frame))
    ensures id in h.clients ==> OnText(h, id, frame).clients[id].lastSeen == h.now
    ensures forall k :: k in h.clients && k != id ==> OnText(h, id, frame).clients[k].lastSeen == h.clients[k].lastSeen
  {
    hide OnText;
    TextAfterTouch(h, id, frame);
  }

  lemma HubChangeOk(s: State, hub: Hub.State)
    requires ServerOk(s) && SameClients(s.hub, hub)
    ensures ServerOk(s.(hub := hub))
  {
    var s' := s.(hub := hub);
    forall id | id in s'.conns
      ensures ConnOk(s', id, s'.conns[id]) && SeenOk(s', id, s'.conns[id])
    {
      assert ConnOk(s, id, s.conns[id]) && SeenOk(s, id, s.conns[id]);
    }
  }

  lemma AcceptOk(s: State, c: ClientId)
    requires ServerOk(s) && Enabled(s, Accept(c))
    ensures ServerOk(Step(s, Accept(c)))
  {
    var s' := Step(s, Accept(c));
    forall id | id in s'.conns
      ensures ConnOk(s', id, s'.conns[id]) && SeenOk(s', id, s'.conns[id])
    {
      if id in s.conns { assert ConnOk(s, id, s.conns[id]) && SeenOk(s, id, s.conns[id]); }
    }
  }

  lemma TickOk(s: State, c: ClientId)
    requires ServerOk(s) && Enabled(s, Tick(c))
    ensures ServerOk(OnTick(s, c))
  {
    var s' := OnTick(s, c);
    forall id | id in s'.conns
      ensures ConnOk(s', id, s'.conns[id]) && SeenOk(s', id, s'.conns[id])
    {
      assert ConnOk(s, id, s.conns[id]) && SeenOk(s, id, s.conns[id]);
    }
  }

  /** One connection moved on while the table stayed as it was. */
  lemma ConnMoves(s: State, c: ClientId, conn: Conn)
    requires ServerOk(s) && c in s.conns && ConnOk(s, c, conn) && SeenOk(s, c, conn)
    ensures ServerOk(SetConn(s, c, conn))
  {
    var s' := SetConn(s, c, conn);
    forall id | id in s'.conns
      ensures ConnOk(s', id, s'.conns[id]) && SeenOk(s', id, s'.conns[id])
    {
      if id != c { assert ConnOk(s, id, s.conns[id]) && SeenOk(s, id, s.conns[id]); }
    }
  }

  lemma ProbeOk(s: State, c: ClientId, ts: Option<U64>)
    requires ServerOk(s) && Enabled(s, Probe(c, ts))
    ensures ServerOk(OnProbe(s, c, ts))
  {
    hide Print;
    assert ConnOk(s, c, s.conns[c]) && SeenOk(s, c, s.conns[c]);
    if Hub.CanSendTo(s.hub, c) {
      var conn := s.conns[c].(ping := Sleeping, outstanding := s.conns[c].outstanding + [s.hub.now]);
      ConnMoves(s, c, conn);
      HubChangeOk(SetConn(s, c, conn), Hub.SendTo(s.hub, c, Print(Ping(ts))));
    } else {
      ConnMoves(s, c, Signal(s.conns[c]));
    }
  }

  lemma ReadOk(s: State, c: ClientId, frame: Json)
    requires ServerOk(s) && Enabled(s, Read(c, frame))
    ensures ServerOk(OnRead(s, c, frame))
  {
    hide OnText;
    TextKeepsClients(s.hub, c, frame);
    assert ConnOk(s, c, s.conns[c]) && SeenOk(s, c, s.conns[c]);
    if IsPong(frame) && s.conns[c].outstanding != [] {
      var conn := s.conns[c].(outstanding := s.conns[c].outstanding[1..]);
      ConnMoves(s, c, conn);
      HubChangeOk(SetConn(s, c, conn), OnText(s.hub, c, frame));
    } else {
      HubChangeOk(s, OnText(s.hub, c, frame));
    }
  }

  lemma UnregisterOk(s: State, c: ClientId)
    requires ServerOk(s) && Enabled(s, Unregister(c))
    ensures ServerOk(OnUnregister(s, c))
  {
    var s' := OnUnregister(s, c);
    forall id | id in s'.conns
      ensures ConnOk(s', id, s'.conns[id]) && SeenOk(s', id, s'.conns[id])
    {
      assert ConnOk(s, id, s.conns[id]) && SeenOk(s, id, s.conns[id]);
    }
  }

  lemma TimeOk(s: State, ms: nat)
    requires ServerOk(s) && TicksOnTime(s, ms)
    ensures ServerOk(Step(s, TimePasses(ms)))
  {
    var s' := Step(s, TimePasses(ms));
    forall id | id in s'.conns
      ensures ConnOk(s', id, s'.conns[id]) && SeenOk(s', id, s'.conns[id])
    {
      assert ConnOk(s, id, s.conns[id]) && SeenOk(s, id, s.conns[id]);
    }
  }

  /** The teardown steps that leave the hub alone. */
  lemma LeaveOk(s: State, c: ClientId, conn: Conn)
    requires ServerOk(s) && c in s.conns
    requires var was := s.conns[c];
             || (was.reader.Reading? && conn == was.(reader := Left))
             || (was.reader.Unregistered? && conn == was.(reader := Aborted, ping := Stopped))
             || (was.reader.Aborted? && conn == was.(reader := Closed, outTx := false))
    ensures ServerOk(SetConn(s, c, conn))
  {
    assert ConnOk(s, c, s.conns[c]) && SeenOk(s, c, s.conns[c]);
    ConnMoves(s, c, conn);
  }

  lemma StepOk(s: State, i: Input)
    requires ServerOk(s) && Enabled(s, i)
    ensures ServerOk(Step(s, i))
  {
    hide ServerOk, OnTick, OnProbe, OnRead, OnUnregister, Hub.Step, Hub.Insert, Hub.Enabled;
    match i
    case Accept(c) => AcceptOk(s, c);
    case Tick(c) => TickOk(s, c);
    case Probe(c, ts) => ProbeOk(s, c, ts);
    case Read(c, frame) => ReadOk(s, c, frame);
    case Leave(c) => LeaveOk(s, c, s.conns[c].(reader := Left));
    case Unregister(c) => UnregisterOk(s, c);
    case Abort(c) => LeaveOk(s, c, s.conns[c].(reader := Aborted, ping := Stopped));
    case DropTx(c) => LeaveOk(s, c, s.conns[c].(reader := Closed, outTx := false));
    case Writer(j) => HubStepKeepsClients(s.hub, j); HubChangeOk(s, Hub.Step(s.hub, j));
    case Caller(j) => HubStepKeepsClients(s.hub, j); HubChangeOk(s, Hub.Step(s.hub, j));
    case TimePasses(ms) => TimeOk(s, ms);
  }

  lemma {:induction false} RunOk(run: seq<State>, inputs: seq<Input>, cfg: Config, k: nat)
    requires IsRun(run, inputs, cfg) && k < |run|
    ensures ServerOk(run[k]) && run[k].cfg == cfg
  {
    if k > 0 {
      RunOk(run, inputs, cfg, k - 1);
      StepOk(run[k - 1], inputs[k - 1]);
      hide ServerOk, Enabled;
      assert Step(run[k - 1], inputs[k - 1]).cfg == run[k - 1].cfg;
    }
  }

  /**
   * Whoever reaped it, a client missing from the table has left its read loop, or has been
   * signalled, or its own ping task signals it no later than one interval after it went missing.
   * The signal fires at most once, and a closed connection leaves no sender on its queue.
   */
  lemma NoZombie(run: seq<State>, inputs: seq<Input>, cfg: Config, k: nat, id: ClientId)
    requires IsRun(run, inputs, cfg) && k < |run| && id in run[k].conns
    ensures var s, c := run[k], run[k].conns[id];
            && (id !in s.hub.clients ==>
                  || !c.reader.Reading?
                  || c.signals == 1
                  || (!c.ping.Stopped? && c.gone.Some? && s.hub.now <= c.gone.value + cfg.interval))
            && c.signals <= 1
            && (c.reader.Closed? ==> Senders(s, id) == 0)
  {
    RunOk(run, inputs, cfg, k);
    assert ConnOk(run[k], id, run[k].conns[id]);
  }

  /** A missing client's own next tick always ends in the signal. */
  lemma OwnTickSignals(s: State, id: ClientId, ts: Option<U64>)
    requires ServerOk(s) && id !in s.hub.clients && Enabled(s, Tick(id))
    ensures var ticked := Step(s, Tick(id));
            && Enabled(ticked, Probe(id, ts))
            && Step(ticked, Probe(id, ts)).conns[id].signals == s.conns[id].signals + 1
            && Step(ticked, Probe(id, ts)).conns[id].ping.Stopped?
  {
  }

  /** A client silent since `lastSeen` is gone, or signalled, one timeout and one interval later. */
  lemma SilentClientRemoved(run: seq<State>, inputs: seq<Input>, cfg: Config, k: nat, id: ClientId)
    requires IsRun(run, inputs, cfg) && k < |run| && id in run[k].hub.clients
    requires run[k].hub.now > run[k].hub.clients[id].lastSeen + cfg.timeout + cfg.interval
    ensures id in run[k].conns && run[k].conns[id].signals == 1
  {
    RunOk(run, inputs, cfg, k);
    assert ConnOk(run[k], id, run[k].conns[id]) && SeenOk(run[k], id, run[k].conns[id]);
  }

  // ---- Keepalive ----

  /** Each ping went out at most an interval after the one before it, the newest one at `last`. */
  ghost predicate Paced(outstanding: seq<nat>, last: nat, interval: nat) {
    && (forall j :: 0 < j < |outstanding| ==> outstanding[j - 1] <= outstanding[j] <= outstanding[j - 1] + interval)
    && (forall j :: 0 <= j < |outstanding| ==> outstanding[j] <= last)
    && (outstanding != [] ==> last <= outstanding[|outstanding| - 1] + interval)
  }

  /**
   * A connection that answers: it is in the table and being read, its oldest unanswered ping is at
   * most a round trip old, and it was heard of at most an interval before that ping went out.
   */
  ghost predicate Alive(s: State, id: ClientId, roundTrip: nat) {
    && id in s.conns && id in s.hub.clients && s.conns[id].reader.Reading? && !s.conns[id].ping.Stopped?
    && var c, seen := s.conns[id], s.hub.clients[id].lastSeen;
    && Paced(c.outstanding, c.lastTick, s.cfg.interval)
    && (c.outstanding != [] && c.ping.Sleeping? ==> c.outstanding[|c.outstanding| - 1] == c.lastTick)
    && (c.outstanding != [] ==> c.outstanding[0] <= seen + s.cfg.interval)
    && (c.outstanding != [] ==> s.hub.now <= c.outstanding[0] + roundTrip)
    && (c.outstanding == [] && c.ping.Sleeping? ==> c.lastTick <= seen)
    && (c.outstanding == [] && c.ping.Probing? ==> c.lastTick <= seen + s.cfg.interval)
  }

  /** The promise about one connection: pongs come back in time, and it is not closed. */
  ghost predicate Responsive(s: State, i: Input, id: ClientId, roundTrip: nat)
    requires id in s.conns
  {
    var c := s.conns[id];
    match i
    case TimePasses(ms) => c.outstanding != [] ==> s.hub.now + ms <= c.outstanding[0] + roundTrip
    case Leave(k) => k != id
    case Probe(k, _) => k == id ==> Hub.Accepts(s.hub, id)
    case _ => true
  }

  lemma FreshIsAlive(s: State, id: ClientId, roundTrip: nat)
    requires ServerOk(s) && Enabled(s, Accept(id))
    ensures Alive(Step(s, Accept(id)), id, roundTrip)
  {
  }

  /** No reaper, whichever connection it runs for, finds a live client dead. */
  lemma AliveNotDead(s: State, id: ClientId, roundTrip: nat)
    requires ServerOk(s) && Alive(s, id, roundTrip) && roundTrip + s.cfg.interval <= s.cfg.timeout
    ensures id !in Hub.Dead(s.hub, s.cfg.timeout)
  {
    assert ConnOk(s, id, s.conns[id]);
  }

  lemma TickAlive(s: State, k: ClientId, id: ClientId, roundTrip: nat)
    requires ServerOk(s) && Alive(s, id, roundTrip) && roundTrip + s.cfg.interval <= s.cfg.timeout
    requires Enabled(s, Tick(k))
    ensures Alive(OnTick(s, k), id, roundTrip)
  {
    AliveNotDead(s, id, roundTrip);
    assert ConnOk(s, id, s.conns[id]) && ConnOk(s, k, s.conns[k]);
  }

  lemma ProbeAlive(s: State, k: ClientId, ts: Option<U64>, id: ClientId, roundTrip: nat)
    requires ServerOk(s) && Alive(s, id, roundTrip)
    requires Enabled(s, Probe(k, ts)) && Responsive(s, Probe(k, ts), id, roundTrip)
    ensures Alive(OnProbe(s, k, ts), id, roundTrip)
  {
    hide Print;
    assert ConnOk(s, id, s.conns[id]);
    if k == id {
      var sent := s.conns[id].outstanding + [s.hub.now];
      assert Paced(sent, s.hub.now, s.cfg.interval);
    }
  }

  lemma ReadAlive(s: State, k: ClientId, frame: Json, id: ClientId, roundTrip: nat)
    requires ServerOk(s) && Alive(s, id, roundTrip) && Enabled(s, Read(k, frame))
    ensures Alive(OnRead(s, k, frame), id, roundTrip)
  {
    hide OnText, IsPong;
    TextKeepsClients(s.hub, k, frame);
    assert ConnOk(s, id, s.conns[id]);
    if k == id {
      if s.conns[id].outstanding != [] { PongReceived(s.conns[id], s.cfg.interval); }
      hide ServerOk, ConnOk, Paced;
    } else {
      hide ServerOk, ConnOk, Paced;
    }
  }

  lemma PongReceived(c: Conn, interval: nat)
    requires Paced(c.outstanding, c.lastTick, interval) && c.outstanding != []
    ensures Paced(c.outstanding[1..], c.lastTick, interval)
  {
  }

  lemma HubAlive(s: State, hub: Hub.State, id: ClientId, roundTrip: nat)
    requires ServerOk(s) && Alive(s, id, roundTrip) && SameClients(s.hub, hub)
    ensures Alive(s.(hub := hub), id, roundTrip)
  {
  }

  lemma StepAlive(s: State, i: Input, id: ClientId, roundTrip: nat)
    requires ServerOk(s) && Alive(s, id, roundTrip) && roundTrip + s.cfg.interval <= s.cfg.timeout
    requires Enabled(s, i) && Responsive(s, i, id, roundTrip)
    ensures Alive(Step(s, i), id, roundTrip)
  {
    hide ServerOk, OnTick, OnProbe, OnRead, Hub.Step, Hub.Enabled, Paced;
    match i
    case Accept(c) => assert c != id by { ConnId(s, id); }
    case Tick(k) => TickAlive(s, k, id, roundTrip);
    case Probe(k, ts) => ProbeAlive(s, k, ts, id, roundTrip);
    case Read(k, frame) => ReadAlive(s, k, frame, id, roundTrip);
    case Writer(j) => HubStepKeepsClients(s.hub, j); HubAlive(s, Hub.Step(s.hub, j), id, roundTrip);
    case Caller(j) => HubStepKeepsClients(s.hub, j); HubAlive(s, Hub.Step(s.hub, j), id, roundTrip);
    case _ =>
  }

  lemma ConnId(s: State, id: ClientId)
    requires ServerOk(s) && id in s.conns
    ensures id !in s.hub.drawn
  {
    assert ConnOk(s, id, s.conns[id]);
  }

  /**
   * If every pong of a connection is read within a round trip that leaves room for one interval in
   * the timeout, then from its registration on no reaper ever removes it.
   */
  lemma {:induction false} KeepaliveBound(
    run: seq<State>, inputs: seq<Input>, cfg: Config, from: nat, k: nat, id: ClientId, roundTrip: nat)
    requires IsRun(run, inputs, cfg) && from < k < |run|
    requires roundTrip + cfg.interval <= cfg.timeout
    requires inputs[from] == Accept(id)
    requires forall j :: from < j < k ==> id in run[j].conns && Responsive(run[j], inputs[j], id, roundTrip)
    ensures id in run[k].hub.clients && id !in Hub.Dead(run[k].hub, cfg.timeout)
    ensures Alive(run[k], id, roundTrip)
    decreases k
  {
    hide Alive, ServerOk, Enabled, Step, Responsive, Start, Hub.Dead;
    RunOk(run, inputs, cfg, k - 1);
    RunOk(run, inputs, cfg, k);
    assert run[k] == Step(run[k - 1], inputs[k - 1]);
    if k == from + 1 {
      FreshIsAlive(run[from], id, roundTrip);
    } else {
      KeepaliveBound(run, inputs, cfg, from, k - 1, id, roundTrip);
      StepAlive(run[k - 1], inputs[k - 1], id, roundTrip);
    }
    AliveNotDead(run[k], id, roundTrip);
    AliveInTable(run[k], id, roundTrip);
  }

  lemma AliveInTable(s: State, id: ClientId, roundTrip: nat)
    requires Alive(s, id, roundTrip)
    ensures id in s.hub.clients
  {
  }
}
