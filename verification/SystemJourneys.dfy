/**
 * What the parts do together when nothing gets in the way: a command reaches the handler and its answer
 * the caller, a ping comes back as a pong, an event reaches the module, and a greeting the host.
 */
module SystemJourneys {
  import opened Base
  import opened Json
  import opened Wire
  import opened RequestIds
  import opened System
  import Hub
  import HE = HubEffects
  import HI = HubInvariants
  import Server
  import SE = ServerEffects
  import R = Relay
  import RH = RelayHistory
  import E = RelayEffects
  import W = WasmBridge
  import D = Dedup

  // ---- One hop ----

  /** A client whose connection is read, over the open socket that its relay sends on. */
  ghost predicate Joined(s: State, c: ClientId, l: Link) {
    && s.relays.Keys == s.buses.Keys && l.relay in s.relays
    && c in s.conns && s.conns[c] == Conn(l, true)
    && c in s.host.hub.clients && c in s.host.hub.chans && s.host.hub.chans[c].open
    && var t := s.relays[l.relay].relay;
    && t.commBus && t.commBusBound && t.listeners > 0
    && t.ws == Some(l.socket) && l.socket < |t.sockets| && t.sockets[l.socket] == R.Open
  }

  function RelayOf(s: State, l: Link): R.State
    requires l.relay in s.relays
  {
    s.relays[l.relay].relay
  }

  function QueueTo(s: State, c: ClientId): seq<Json>
    requires c in s.host.hub.chans
  {
    s.host.hub.chans[c].queue
  }

  /** Nothing changed but the relay at one end of the link, its CommBus and the frames on their way to the host. */
  ghost predicate OnlyRelay(s: State, s': State, l: Link, t': R.State, calls: set<Json>, frames: seq<Json>) {
    && l.relay in s.relays && l.relay in s.buses
    && s'.relays.Keys == s.relays.Keys && s'.buses.Keys == s.buses.Keys && s'.conns == s.conns
    && s'.relays[l.relay].relay == t'
    && s'.buses[l.relay] == s.buses[l.relay].(toWasm := s.buses[l.relay].toWasm + calls)
    && UpOf(s', l) == UpOf(s, l) + frames
  }

  lemma OneFrame(k: R.SocketId, frame: Json, cause: R.Cause)
    ensures FramesVia([R.Send(Some(k), frame, cause)], k) == [frame] && CallsIn([R.Send(Some(k), frame, cause)]) == {}
  {
    assert [R.Send(Some(k), frame, cause)][..0] == [];
  }

  lemma OneCall(k: R.SocketId, envelope: Json)
    ensures FramesVia([R.Call(envelope)], k) == [] && CallsIn([R.Call(envelope)]) == {envelope}
  {
    assert [R.Call(envelope)][..0] == [];
    assert [R.Call(envelope)][0].envelope == envelope;
  }

  /** A handler of the relay, whatever called it: its frames join the socket, its calls the CommBus. */
  lemma RelayHop(s: State, l: Link, i: R.Input)
    requires l.relay in s.relays && l.relay in s.buses && R.Enabled(RelayOf(s, l), i)
    requires l.socket < |R.Step(RelayOf(s, l), i).sockets|
    ensures var t', s' := R.Step(RelayOf(s, l), i), RelayStep(s, l.relay, i);
            OnlyRelay(s, s', l, t', CallsIn(t'.out), FramesVia(t'.out, l.socket)) && s'.host == s.host
  {
    hide R.Step, FramesVia, CallsIn;
  }

  /** Step i can be taken in s and leads to s'. */
  ghost predicate Leads(s: State, i: Input, s': State) {
    s.relays.Keys == s.buses.Keys && Enabled(s, i) && s' == Step(s, i)
  }

  lemma CanArriveNow(s: State, c: ClientId, l: Link, clock: int, onThrows: bool)
    requires Joined(s, c, l) && QueueTo(s, c) != []
    ensures CanArrive(s, c) && l.relay in s.buses && R.Enabled(RelayOf(s, l), R.HostSends(l.socket, QueueTo(s, c)[0], clock, onThrows))
    ensures RelayInput(s, Arrives(c, clock, onThrows)) == R.HostSends(l.socket, QueueTo(s, c)[0], clock, onThrows)
  {
  }

  lemma ArriveLeads(s: State, c: ClientId, l: Link, clock: int, onThrows: bool)
    requires Joined(s, c, l) && QueueTo(s, c) != []
    ensures CanArrive(s, c) && RelayInput(s, Arrives(c, clock, onThrows)) == R.HostSends(l.socket, QueueTo(s, c)[0], clock, onThrows)
    ensures R.Enabled(RelayOf(s, l), RelayInput(s, Arrives(c, clock, onThrows))) && l.relay in s.buses
    ensures Leads(s, Arrives(c, clock, onThrows), Arrive(s, c, clock, onThrows))
  {
    CanArriveNow(s, c, l, clock, onThrows);
    hide CanArrive, RelayInput, Arrive, R.Enabled;
  }

  lemma ArriveParts(s: State, c: ClientId, l: Link, clock: int, onThrows: bool)
    requires Joined(s, c, l) && CanArrive(s, c) && l.relay in s.buses
    requires RelayInput(s, Arrives(c, clock, onThrows)) == R.HostSends(l.socket, QueueTo(s, c)[0], clock, onThrows)
    requires R.Enabled(RelayOf(s, l), RelayInput(s, Arrives(c, clock, onThrows)))
    requires l.socket < |R.Step(RelayOf(s, l), R.HostSends(l.socket, QueueTo(s, c)[0], clock, onThrows)).sockets|
    ensures var s', h := Arrive(s, c, clock, onThrows), s.host.hub;
            var t' := R.Step(RelayOf(s, l), R.HostSends(l.socket, QueueTo(s, c)[0], clock, onThrows));
            && OnlyRelay(s, s', l, t', CallsIn(t'.out), FramesVia(t'.out, l.socket))
            && s'.host.hub == h.(chans := h.chans[c := Hub.Chan(h.chans[c].queue[1..], true)])
  {
    hide R.Step, FramesVia, CallsIn, RelayStep, OnlyRelay, RelayInput, R.Enabled;
    var i := R.HostSends(l.socket, QueueTo(s, c)[0], clock, onThrows);
    var s1 := Reach(HostStep(s, Hub.WriterSends(c)), l.relay, i.msg);
    Sent(s, c);
    assert s1.relays == s.relays && s1.buses == s.buses && s1.ups == s.ups && s1.conns == s.conns;
    RelayHop(s1, l, i);
    SameRelayHop(s, s1, RelayStep(s1, l.relay, i), l, R.Step(RelayOf(s, l), i));
  }

  lemma Sent(s: State, c: ClientId)
    requires Hub.Enabled(s.host.hub, Hub.WriterSends(c))
    ensures var h := s.host.hub;
            HostStep(s, Hub.WriterSends(c)).host.hub == h.(chans := h.chans[c := Hub.Chan(h.chans[c].queue[1..], true)])
  {
  }

  /** The next frame for a client arrives at its relay. */
  lemma ArrivalHop(s: State, c: ClientId, l: Link, clock: int, onThrows: bool) returns (s': State)
    requires Joined(s, c, l) && QueueTo(s, c) != []
    requires l.socket < |R.Step(RelayOf(s, l), R.HostSends(l.socket, QueueTo(s, c)[0], clock, onThrows)).sockets|
    ensures Leads(s, Arrives(c, clock, onThrows), s')
    ensures var t' := R.Step(RelayOf(s, l), R.HostSends(l.socket, QueueTo(s, c)[0], clock, onThrows));
            OnlyRelay(s, s', l, t', CallsIn(t'.out), FramesVia(t'.out, l.socket))
    ensures var h := s.host.hub; s'.host.hub == h.(chans := h.chans[c := Hub.Chan(h.chans[c].queue[1..], true)])
  {
    hide R.Step, FramesVia, CallsIn, CanArrive, RelayInput, Arrive, OnlyRelay, Leads, R.Enabled;
    ArriveLeads(s, c, l, clock, onThrows);
    ArriveParts(s, c, l, clock, onThrows);
    s' := Arrive(s, c, clock, onThrows);
  }

  lemma SameRelayHop(s: State, s1: State, s': State, l: Link, t': R.State)
    requires s1.relays == s.relays && s1.buses == s.buses && s1.ups == s.ups && s1.conns == s.conns
    requires OnlyRelay(s1, s', l, t', CallsIn(t'.out), FramesVia(t'.out, l.socket))
    ensures OnlyRelay(s, s', l, t', CallsIn(t'.out), FramesVia(t'.out, l.socket))
  {
    hide FramesVia, CallsIn;
  }

  /** The host reads the next frame of a client. */
  lemma ReadingHop(s: State, c: ClientId, l: Link) returns (s': State)
    requires s.relays.Keys == s.buses.Keys && c in s.conns && s.conns[c] == Conn(l, true) && UpOf(s, l) != []
    ensures Leads(s, HostReads(c), s')
    ensures s'.host.hub == Server.OnText(s.host.hub, c, UpOf(s, l)[0]) && s' == s.(host := s'.host, ups := s.ups[l := UpOf(s, l)[1..]])
  {
    SE.HostReads(s, c);
    hide HostRead, Server.OnText;
    s' := Step(s, HostReads(c));
  }

  // ---- Keepalive ----

  /** A ping is answered over the socket it came by, and reading the answer refreshes the client. */
  lemma PingComesBack(s: State, c: ClientId, l: Link, ts: Option<U64>, clock: int, onThrows: bool) returns (s1: State, s2: State)
    requires Joined(s, c, l) && QueueTo(s, c) == [Print(Ping(ts))] && UpOf(s, l) == []
    ensures Leads(s, Arrives(c, clock, onThrows), s1) && Leads(s1, HostReads(c), s2)
    ensures UpOf(s1, l) == [Obj(map["t" := Str("pong"), "ts" := Int(clock)])] && UpOf(s2, l) == []
    ensures 0 <= clock < 0x1_0000_0000_0000_0000 ==> Server.IsPong(UpOf(s1, l)[0])
    ensures c in s2.host.hub.clients && s2.host.hub.clients[c].lastSeen == s2.host.hub.now
  {
    hide R.Step, Parse, Print, FramesVia, CallsIn, Leads, Server.OnText;
    var pong := Obj(map["t" := Str("pong"), "ts" := Int(clock)]);
    PingAtRelay(RelayOf(s, l), l.socket, ts, clock, onThrows);
    OneFrame(l.socket, pong, R.Keepalive);
    s1 := ArrivalHop(s, c, l, clock, onThrows);
    s2 := ReadingHop(s1, c, l);
    Server.TextKeepsClients(s1.host.hub, c, pong);
  }

  lemma PingAtRelay(t: R.State, k: R.SocketId, ts: Option<U64>, clock: int, onThrows: bool)
    requires t.ws == Some(k) && R.IsOpen(t, k)
    ensures var pong := Obj(map["t" := Str("pong"), "ts" := Int(clock)]);
            && R.Step(t, R.HostSends(k, Print(Ping(ts)), clock, onThrows)) == t.(out := [R.Send(Some(k), pong, R.Keepalive)])
            && (0 <= clock < 0x1_0000_0000_0000_0000 ==> Server.IsPong(pong))
  {
    var i := R.HostSends(k, Print(Ping(ts)), clock, onThrows);
    assert i.msg.Tag() == Some("ping");
    hide R.Step, Print, Parse;
    E.PingAnswered(t, i);
  }

  // ---- Commands ----

  lemma HostHop(s: State, j: Hub.Input) returns (s': State)
    requires s.relays.Keys == s.buses.Keys && FromHost(j) && Hub.Enabled(s.host.hub, j)
    ensures Leads(s, HostDoes(j), s')
    ensures s' == s.(host := s'.host) && s'.host.hub == Hub.Step(s.host.hub, j)
  {
    hide Hub.Step, Hub.Enabled, FromHost;
    s' := HostStep(s, j);
    assert Leads(s, HostDoes(j), s');
  }

  /** The module answers a command it was handed. */
  lemma ModuleHop(s: State, r: RelayId, env: Json, q: string, name: Option<string>, payload: Json, answer: W.Answer)
    returns (s': State)
    requires s.relays.Keys == s.buses.Keys && r in s.buses && env in s.buses[r].toWasm
    requires W.Unwrap(env) == Some(W.Request(q, W.Command(name, payload)))
    ensures Leads(s, WasmGets(r, env, answer), s')
    ensures s'.host == s.host && s'.relays == s.relays && s'.conns == s.conns && s'.ups == s.ups && s'.buses.Keys == s.buses.Keys
    ensures W.Response(q, answer) in s'.buses[r].fromWasm && Handled(r, q, name, payload, answer) in s'.handled
  {
    hide W.Unwrap, W.Response;
    s' := WasmGet(s, r, env, answer);
    assert Leads(s, WasmGets(r, env, answer), s');
  }

  /** A message of the module reaches its relay. */
  lemma ReplyHop(s: State, l: Link, msg: Json) returns (s': State)
    requires s.relays.Keys == s.buses.Keys && l.relay in s.relays && msg in s.buses[l.relay].fromWasm && RelayOf(s, l).listeners > 0
    requires l.socket < |R.Step(RelayOf(s, l), R.WasmSends(msg)).sockets|
    ensures Leads(s, WasmReaches(l.relay, msg), s') && s'.host == s.host
    ensures var t' := R.Step(RelayOf(s, l), R.WasmSends(msg));
            OnlyRelay(s, s', l, t', CallsIn(t'.out), FramesVia(t'.out, l.socket))
  {
    hide R.Step, FramesVia, CallsIn, RelayStep, OnlyRelay;
    RelayHop(s, l, R.WasmSends(msg));
    s' := RelayStep(s, l.relay, R.WasmSends(msg));
    assert Leads(s, WasmReaches(l.relay, msg), s');
  }

  /** A command for which nothing has been done yet, and a relay ready to take it. */
  ghost predicate Askable(s: State, c: ClientId, l: Link, id: string) {
    && Joined(s, c, l) && QueueTo(s, c) == [] && UpOf(s, l) == []
    && HI.IsTarget(s.host.hub, c) && !Hub.Started(s.host.hub, id) && id !in s.host.hub.pending
    && id !in RelayOf(s, l).dedup.order
  }

  /** The host waits for the n-th call, sent under this id. */
  predicate Waits(h: Hub.State, n: Hub.CallId, id: string) {
    && n < |h.calls| && h.calls[n].id == id && h.calls[n].phase.Waiting? && h.calls[n].slot.Empty?
    && id in h.pending && h.pending[id] == n
  }

  lemma BeginAndOffer(h: Hub.State, c: ClientId, id: string, name: Option<string>, payload: Json, timeout: nat)
    requires HI.IsTarget(h, c) && c in h.chans && h.chans[c] == Hub.Chan([], true) && !Hub.Started(h, id) && id !in h.pending
    ensures var n, begin := |h.calls|, Hub.DoBegin(id, name, payload, timeout);
            && Hub.Enabled(h, begin) && Hub.Enabled(Hub.Step(h, begin), Hub.DoOffer(n))
            && var h' := Hub.Step(Hub.Step(h, begin), Hub.DoOffer(n));
            && Waits(h', n, id) && h'.clients == h.clients && h'.calls[n].name == name && h'.calls[n].payload == payload
            && c in h'.chans && h'.chans[c] == Hub.Chan([Print(Cmd(CmdPayload(id, name, payload)))], true)
  {
    HE.BeginStores(h, id, name, payload, timeout);
    var h1 := Hub.Step(h, Hub.DoBegin(id, name, payload, timeout));
    assert h1.calls[|h.calls|] == Hub.Call(id, name, payload, timeout, 0, Hub.Inserted, Hub.Empty);
    hide Hub.Step;
    HE.OfferSends(h1, |h.calls|, c);
  }

  lemma CommandAtRelay(t: R.State, k: R.SocketId, cmd: CmdPayload, clock: int, onThrows: bool)
    requires t.commBus && t.commBusBound && k < |t.sockets| && cmd.id !in t.dedup.order
    ensures var i, q := R.HostSends(k, Print(Cmd(cmd)), clock, onThrows), RequestId(clock, t.requestSeq + 1);
            R.Step(t, i) == E.Taken(t, cmd.id, q).(out := [R.Call(R.Envelope(q, Print(Cmd(cmd))))])
  {
    var i := R.HostSends(k, Print(Cmd(cmd)), clock, onThrows);
    assert i.msg.Tag() == Some("cmd") && i.msg.Get("id") == Some(Str(cmd.id));
    hide R.Step, Print, RequestId, E.Taken;
    E.CommandForwarded(t, i, cmd.id);
  }

  /** On the way out: from the call to the CommBus. */
  lemma CommandGoesOut(s: State, c: ClientId, l: Link, cmd: CmdPayload, timeout: nat, clock: int, onThrows: bool)
    returns (s1: State, s2: State, s3: State, q: string)
    requires Askable(s, c, l, cmd.id)
    ensures Leads(s, HostDoes(Hub.DoBegin(cmd.id, cmd.name, cmd.payload, timeout)), s1)
    ensures Leads(s1, HostDoes(Hub.DoOffer(|s.host.hub.calls|)), s2) && Leads(s2, Arrives(c, clock, onThrows), s3)
    ensures Joined(s3, c, l) && UpOf(s3, l) == [] && Waits(s3.host.hub, |s.host.hub.calls|, cmd.id)
    ensures q in RelayOf(s3, l).pending && RelayOf(s3, l).pending[q].cmdId == cmd.id
    ensures R.Envelope(q, Print(Cmd(cmd))) in s3.buses[l.relay].toWasm
  {
    hide Hub.Step, Hub.Enabled, R.Step, Print, RequestId, FramesVia, CallsIn, Leads, R.Envelope;
    q := RequestId(clock, RelayOf(s, l).requestSeq + 1);
    BeginAndOffer(s.host.hub, c, cmd.id, cmd.name, cmd.payload, timeout);
    s1 := HostHop(s, Hub.DoBegin(cmd.id, cmd.name, cmd.payload, timeout));
    s2 := HostHop(s1, Hub.DoOffer(|s.host.hub.calls|));
    CommandAtRelay(RelayOf(s, l), l.socket, cmd, clock, onThrows);
    OneCall(l.socket, R.Envelope(q, Print(Cmd(cmd))));
    s3 := ArrivalHop(s2, c, l, clock, onThrows);
  }

  /** The ack a relay makes of an answer. */
  function AckOf(id: string, answer: W.Answer): Json {
    if answer.Ok? then E.Success(id, Some(answer.value)) else E.Refusal(id, answer.message)
  }

  lemma AnswerAtRelay(t: R.State, k: R.SocketId, q: string, answer: W.Answer)
    requires t.ws == Some(k) && R.IsOpen(t, k) && q in t.pending && t.listeners > 0
    ensures R.Step(t, R.WasmSends(W.Response(q, answer)))
         == t.(pending := t.pending - {q}, timers := t.timers - {t.pending[q].timerId},
               out := [R.Send(Some(k), AckOf(t.pending[q].cmdId, answer), R.Settles(q))])
  {
    var i := R.WasmSends(W.Response(q, answer));
    W.ResponseFields(q, answer);
    hide R.Step, W.Response;
    if answer.Ok? { E.AnswerSettles(t, i, q); } else { E.FailureSettles(t, i, q); }
  }

  /** On the way back: from the CommBus to the host's socket. */
  lemma AnswerComesBack(s: State, c: ClientId, l: Link, cmd: CmdPayload, q: string, answer: W.Answer)
    returns (s1: State, s2: State)
    requires Joined(s, c, l) && UpOf(s, l) == [] && R.Envelope(q, Print(Cmd(cmd))) in s.buses[l.relay].toWasm
    requires q in RelayOf(s, l).pending && RelayOf(s, l).pending[q].cmdId == cmd.id
    ensures Leads(s, WasmGets(l.relay, R.Envelope(q, Print(Cmd(cmd))), answer), s1)
    ensures Leads(s1, WasmReaches(l.relay, W.Response(q, answer)), s2)
    ensures Handled(l.relay, q, cmd.name, cmd.payload, answer) in s1.handled
    ensures s2.host == s.host && Joined(s2, c, l) && UpOf(s2, l) == [AckOf(cmd.id, answer)]
  {
    hide R.Step, Print, FramesVia, CallsIn, Leads, R.Envelope, W.Unwrap, W.Response, AckOf;
    W.HostCommandUnwraps(q, cmd);
    s1 := ModuleHop(s, l.relay, R.Envelope(q, Print(Cmd(cmd))), q, cmd.name, cmd.payload, answer);
    AnswerAtRelay(RelayOf(s, l), l.socket, q, answer);
    OneFrame(l.socket, AckOf(cmd.id, answer), R.Settles(q));
    s2 := ReplyHop(s1, l, W.Response(q, answer));
  }

  /** What the caller of `command` gets for an answer of the module. */
  function OutcomeFor(answer: W.Answer): Hub.Outcome {
    if answer.Ok? then Hub.Answer(answer.value) else Hub.Failed(Hub.Application, answer.message)
  }

  lemma AckParses(id: string, answer: W.Answer) returns (ack: AckPayload)
    ensures Parse(AckOf(id, answer)) == Some(Ack(ack)) && ack.id == id && ack.ok == answer.Ok?
    ensures answer.Ok? ==> answer.value == if ack.response.Some? then ack.response.value else Null
    ensures answer.Err? ==> ack.error == Some(answer.message)
  {
    hide Print, Parse;
    E.AckFrames(id, Some(if answer.Ok? then answer.value else Null), if answer.Err? then answer.message else "");
    if answer.Ok? {
      ack := AckPayload(id, true, None, DropNull(Some(answer.value)), None);
      AckRoundTrip(AckPayload(id, true, None, Some(answer.value), None));
    } else {
      ack := AckPayload(id, false, Some(answer.message), None, None);
      AckRoundTrip(ack);
    }
  }

  lemma ReadAndEnd(h: Hub.State, c: ClientId, frame: Json, ack: AckPayload, n: Hub.CallId, answer: W.Answer)
    requires Parse(frame) == Some(Ack(ack)) && Waits(h, n, ack.id) && ack.ok == answer.Ok?
    requires answer.Ok? ==> answer.value == if ack.response.Some? then ack.response.value else Null
    requires answer.Err? ==> ack.error == Some(answer.message)
    ensures var h1 := Server.OnText(h, c, frame);
            && Hub.Enabled(h1, Hub.DoDeliver(n))
            && var h2 := Hub.Step(h1, Hub.DoDeliver(n));
            && Hub.Enabled(h2, Hub.DoResolve(n)) && n < |Hub.Step(h2, Hub.DoResolve(n)).calls|
            && var c := Hub.Step(h2, Hub.DoResolve(n)).calls[n];
            c.phase == Hub.Resolved(OutcomeFor(answer)) && c.id == ack.id
  {
    SE.AckRead(h, c, frame, ack);
    hide Server.OnText, Parse;
    HE.FiredAckEnds(Server.OnText(h, c, frame), n);
    HE.AwaitEnds(Hub.Step(Server.OnText(h, c, frame), Hub.DoDeliver(n)), n);
  }

  /** At the host: from its socket to the caller. */
  lemma AnswerIsReturned(s: State, c: ClientId, l: Link, id: string, n: Hub.CallId, answer: W.Answer)
    returns (s1: State, s2: State, s3: State, s4: State)
    requires Joined(s, c, l) && UpOf(s, l) == [AckOf(id, answer)] && Waits(s.host.hub, n, id)
    ensures Leads(s, HostReads(c), s1) && Leads(s1, HostDoes(Hub.DoDeliver(n)), s2)
    ensures Leads(s2, HostDoes(Hub.DoResolve(n)), s3) && Leads(s3, HostDoes(Hub.DoFinish(n)), s4)
    ensures Ended(s4.host.hub, n, id, OutcomeFor(answer))
  {
    hide Hub.Step, Parse, Leads, Server.OnText, AckOf, OutcomeFor;
    var ack := AckParses(id, answer);
    ReadAndEnd(s.host.hub, c, AckOf(id, answer), ack, n, answer);
    s1 := ReadingHop(s, c, l);
    s2 := HostHop(s1, Hub.DoDeliver(n));
    s3 := HostHop(s2, Hub.DoResolve(n));
    HE.CallFinishes(s3.host.hub, n);
    s4 := HostHop(s3, Hub.DoFinish(n));
  }

  // ---- Events and greetings ----

  /** An event of the host reaches the module's event handler with its own name and data. */
  lemma EventReachesModule(s: State, c: ClientId, l: Link, e: EventPayload, clock: int, onThrows: bool)
    returns (s1: State, q: string)
    requires Joined(s, c, l) && QueueTo(s, c) != [] && QueueTo(s, c)[0] == Print(Event(e))
    ensures Leads(s, Arrives(c, clock, onThrows), s1)
    ensures R.Envelope(q, Print(Event(e))) in s1.buses[l.relay].toWasm
    ensures W.Unwrap(R.Envelope(q, Print(Event(e)))) == Some(W.Request(q, W.Notify(e.name, e.data)))
    ensures RelayOf(s1, l).pending == RelayOf(s, l).pending && UpOf(s1, l) == UpOf(s, l)
  {
    hide R.Step, Print, RequestId, FramesVia, CallsIn, Leads, R.Envelope, W.Unwrap, Parse;
    q := RequestId(clock, RelayOf(s, l).requestSeq + 1);
    EventAtRelay(RelayOf(s, l), l.socket, e, clock, onThrows);
    OneCall(l.socket, R.Envelope(q, Print(Event(e))));
    W.HostEventUnwraps(q, e, W.Ok(Null));
    s1 := ArrivalHop(s, c, l, clock, onThrows);
  }

  lemma EventAtRelay(t: R.State, k: R.SocketId, e: EventPayload, clock: int, onThrows: bool)
    requires t.commBus && k < |t.sockets|
    ensures var q := RequestId(clock, t.requestSeq + 1);
            R.Step(t, R.HostSends(k, Print(Event(e)), clock, onThrows))
            == t.(requestSeq := t.requestSeq + 1, out := [R.Call(R.Envelope(q, Print(Event(e))))])
  {
    var i := R.HostSends(k, Print(Event(e)), clock, onThrows);
    assert i.msg.Tag() == Some("event");
    hide R.Step, Print, RequestId;
    E.EventForwarded(t, i);
  }

  /** A relay whose socket in use is about to open, with its client registered already. */
  ghost predicate Opening(s: State, c: ClientId, l: Link) {
    && s.relays.Keys == s.buses.Keys && l.relay in s.relays
    && c in s.conns && s.conns[c] == Conn(l, true) && c in s.host.hub.clients && UpOf(s, l) == []
    && var t := RelayOf(s, l);
    t.ws == Some(l.socket) && l.socket < |t.sockets| && t.sockets[l.socket] == R.Connecting
    && 0 <= t.cfg.protocolVersion < 0x1_0000_0000
  }

  /** The hello the host stores for a relay of this configuration. */
  function Greeting(cfg: R.Config, clock: int): HelloPayload
    requires 0 <= cfg.protocolVersion < 0x1_0000_0000
  {
    HelloPayload(Some(if cfg.client.Some? then cfg.client.value else "msfs-gauge"), cfg.aircraft, cfg.tail,
                 Some(if cfg.session.Some? then cfg.session.value else Decimal(clock)),
                 Some(cfg.protocolVersion as U32), if cfg.meta == Some(Null) then None else cfg.meta)
  }

  lemma OpeningAtRelay(t: R.State, k: R.SocketId, clock: int) returns (hello: Json)
    requires t.ws == Some(k) && k < |t.sockets| && t.sockets[k] == R.Connecting && 0 <= t.cfg.protocolVersion < 0x1_0000_0000
    ensures var t' := R.Step(t, R.SocketOpens(k, clock));
            && t' == t.(sockets := t.sockets[k := R.Open], out := t'.out)
            && FramesVia(t'.out, k) == [hello, E.ReadyFrame(t.commBusBound)]
    ensures Parse(hello) == Some(Hello(Greeting(t.cfg, clock)))
  {
    hide R.Step, Parse, E.IsHello, FramesVia, E.ReadyFrame, Greeting;
    E.OpeningGreets(t, R.SocketOpens(k, clock));
    var out := R.Step(t, R.SocketOpens(k, clock)).out;
    hello := out[0].frame;
    GreetingDecodes(hello, t.cfg, clock);
    TwoFrames(k, hello, out[0].cause, E.ReadyFrame(t.commBusBound));
    assert out == [R.Send(Some(k), hello, out[0].cause), R.Send(Some(k), E.ReadyFrame(t.commBusBound), R.Ready)];
  }

  lemma GreetingDecodes(hello: Json, cfg: R.Config, clock: int)
    requires E.IsHello(hello, cfg, clock) && 0 <= cfg.protocolVersion < 0x1_0000_0000
    ensures Parse(hello) == Some(Hello(Greeting(cfg, clock)))
  {
    E.HelloDecodes(hello, cfg, clock);
    hide Parse, E.IsHello;
  }

  lemma TwoFrames(k: R.SocketId, first: Json, cause: R.Cause, second: Json)
    ensures FramesVia([R.Send(Some(k), first, cause), R.Send(Some(k), second, R.Ready)], k) == [first, second]
  {
    OneFrame(k, first, cause);
    assert [R.Send(Some(k), first, cause), R.Send(Some(k), second, R.Ready)][..1] == [R.Send(Some(k), first, cause)];
  }

  lemma ReadyParses(bound: bool)
    ensures Parse(E.ReadyFrame(bound)) == Some(Event(EventPayload("__bridge_ready", Obj(map["ready" := Bool(bound)]))))
  {
    E.ReadyFrames(bound);
    EventRoundTrip(EventPayload(READY_EVENT, Obj(map["ready" := Bool(bound)])));
    hide Parse, Print;
  }

  /**
   * When a relay's socket opens, the host learns who it is and whether it can reach its module, from
   * the two frames that follow, in that order.
   */
  lemma GreetingArrives(s: State, c: ClientId, l: Link, clock: int) returns (s1: State, s2: State, s3: State)
    requires Opening(s, c, l)
    ensures Leads(s, RelayDoes(l.relay, R.SocketOpens(l.socket, clock)), s1)
    ensures Leads(s1, HostReads(c), s2) && Leads(s2, HostReads(c), s3)
    ensures c in s3.host.hub.clients
    ensures var client := s3.host.hub.clients[c];
            client == Hub.Client(Some(Greeting(RelayOf(s, l).cfg, clock)), s.host.hub.now, RelayOf(s, l).commBusBound)
  {
    hide R.Step, Parse, FramesVia, CallsIn, Leads, Server.OnText, Greeting;
    var hello := OpeningAtRelay(RelayOf(s, l), l.socket, clock);
    s1 := OpenHop(s, l, clock);
    s2 := ReadingHop(s1, c, l);
    SE.HelloRead(s1.host.hub, c, hello, Greeting(RelayOf(s, l).cfg, clock));
    ReadyParses(RelayOf(s, l).commBusBound);
    SE.ReadyRead(s2.host.hub, c, E.ReadyFrame(RelayOf(s, l).commBusBound), Obj(map["ready" := Bool(RelayOf(s, l).commBusBound)]));
    s3 := ReadingHop(s2, c, l);
  }

  lemma OpenHop(s: State, l: Link, clock: int) returns (s': State)
    requires s.relays.Keys == s.buses.Keys && l.relay in s.relays
    requires R.Enabled(RelayOf(s, l), R.SocketOpens(l.socket, clock))
    requires l.socket < |R.Step(RelayOf(s, l), R.SocketOpens(l.socket, clock)).sockets|
    ensures Leads(s, RelayDoes(l.relay, R.SocketOpens(l.socket, clock)), s') && s'.host == s.host
    ensures var t' := R.Step(RelayOf(s, l), R.SocketOpens(l.socket, clock));
            OnlyRelay(s, s', l, t', CallsIn(t'.out), FramesVia(t'.out, l.socket))
  {
    hide R.Step, FramesVia, CallsIn, RelayStep, OnlyRelay;
    RelayHop(s, l, R.SocketOpens(l.socket, clock));
    s' := RelayStep(s, l.relay, R.SocketOpens(l.socket, clock));
    assert Leads(s, RelayDoes(l.relay, R.SocketOpens(l.socket, clock)), s');
  }

  // ---- Runs ----

  /** The states that these steps lead through from s. */
  ghost predicate Path(states: seq<State>, inputs: seq<Input>) {
    && |states| == |inputs| + 1
    && forall k :: 0 <= k < |inputs| ==> Leads(states[k], inputs[k], states[k + 1])
  }

  lemma Joins(states: seq<State>, inputs: seq<Input>)
    requires |states| == 10 && |inputs| == 9
    requires Leads(states[0], inputs[0], states[1]) && Leads(states[1], inputs[1], states[2]) && Leads(states[2], inputs[2], states[3])
    requires Leads(states[3], inputs[3], states[4]) && Leads(states[4], inputs[4], states[5]) && Leads(states[5], inputs[5], states[6])
    requires Leads(states[6], inputs[6], states[7]) && Leads(states[7], inputs[7], states[8]) && Leads(states[8], inputs[8], states[9])
    ensures Path(states, inputs)
  {
    hide Leads;
    forall k | 0 <= k < 9
      ensures Leads(states[k], inputs[k], states[k + 1])
    {
      assert k == 0 || k == 1 || k == 2 || k == 3 || k == 4 || k == 5 || k == 6 || k == 7 || k == 8;
    }
  }

  /** What can be done in a state of a run makes a longer run. */
  lemma {:induction false} PathExtends(run: seq<State>, inputs: seq<Input>, states: seq<State>, more: seq<Input>)
    requires IsRun(run, inputs) && Path(states, more) && states[0] == run[|run| - 1]
    ensures IsRun(run + states[1..], inputs + more)
  {
    hide Enabled, Step, Initial;
    var longer, all := run + states[1..], inputs + more;
    forall k | 0 <= k < |all|
      ensures longer[k].relays.Keys == longer[k].buses.Keys && Enabled(longer[k], all[k]) && longer[k + 1] == Step(longer[k], all[k])
    {
      if k >= |inputs| { assert Leads(states[k - |inputs|], more[k - |inputs|], states[k - |inputs| + 1]); }
    }
  }

  /**
   * Every command can be answered: in any state of any run in which its relay is bound, sends over the
   * client's open socket and has nothing queued, any name, payload and answer of the module lead, in
   * nine steps, to a call that returned that very answer, or the module's error.
   */
  lemma CommandCompletes(
    run: seq<State>, inputs: seq<Input>, c: ClientId, l: Link, cmd: CmdPayload, timeout: nat, clock: int, onThrows: bool,
    answer: W.Answer)
    returns (states: seq<State>, more: seq<Input>)
    requires IsRun(run, inputs) && Askable(run[|run| - 1], c, l, cmd.id)
    ensures Path(states, more) && states[0] == run[|run| - 1] && IsRun(run + states[1..], inputs + more)
    ensures |more| == 9 && more[0] == HostDoes(Hub.DoBegin(cmd.id, cmd.name, cmd.payload, timeout))
    ensures var n, h := |run[|run| - 1].host.hub.calls|, states[9].host.hub;
            && n < |h.calls| && cmd.id !in h.pending && h.calls[n].id == cmd.id
            && h.calls[n].phase
            == Hub.Finished(if answer.Ok? then Hub.Answer(answer.value) else Hub.Failed(Hub.Application, answer.message))
  {
    var s := run[|run| - 1];
    hide IsRun, Askable, Path;
    states, more := CommandWalk(s, c, l, cmd, timeout, clock, onThrows, answer);
    PathExtends(run, inputs, states, more);
  }

  lemma CommandWalk(
    s: State, c: ClientId, l: Link, cmd: CmdPayload, timeout: nat, clock: int, onThrows: bool, answer: W.Answer)
    returns (states: seq<State>, more: seq<Input>)
    requires Askable(s, c, l, cmd.id)
    ensures |more| == 9 && more[0] == HostDoes(Hub.DoBegin(cmd.id, cmd.name, cmd.payload, timeout))
    ensures |states| == 10 && Path(states, more) && states[0] == s
    ensures Ended(states[9].host.hub, |s.host.hub.calls|, cmd.id, OutcomeFor(answer))
  {
    hide Askable, Joined, Leads, Waits, R.Envelope, W.Response, Print, AckOf, UpOf, Path, OutcomeFor;
    var n := |s.host.hub.calls|;
    var s1, s2, s3, q := CommandGoesOut(s, c, l, cmd, timeout, clock, onThrows);
    var s4, s5 := AnswerComesBack(s3, c, l, cmd, q, answer);
    var s6, s7, s8, s9 := AnswerIsReturned(s5, c, l, cmd.id, n, answer);
    states := [s, s1, s2, s3, s4, s5, s6, s7, s8, s9];
    more := [HostDoes(Hub.DoBegin(cmd.id, cmd.name, cmd.payload, timeout)), HostDoes(Hub.DoOffer(n)), Arrives(c, clock, onThrows),
             WasmGets(l.relay, R.Envelope(q, Print(Cmd(cmd))), answer), WasmReaches(l.relay, W.Response(q, answer)),
             HostReads(c), HostDoes(Hub.DoDeliver(n)), HostDoes(Hub.DoResolve(n)), HostDoes(Hub.DoFinish(n))];
    Joins(states, more);
  }

  /** The n-th call is over with this outcome and has left no entry. */
  predicate Ended(h: Hub.State, n: Hub.CallId, id: string, outcome: Hub.Outcome) {
    n < |h.calls| && h.calls[n].id == id && id !in h.pending && h.calls[n].phase == Hub.Finished(outcome)
  }
}
