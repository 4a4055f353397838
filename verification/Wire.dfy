/** The host protocol (crates/infinity-bridge-wire/src/msg.rs) at the level of JSON trees. */
module Wire {
  import opened Base
  import opened Json

  newtype U64 = n: int | 0 <= n < 0x1_0000_0000_0000_0000
  newtype U32 = n: int | 0 <= n < 0x1_0000_0000

  const READY_EVENT := "__bridge_ready"

  datatype HelloPayload = HelloPayload(
    client: Option<string>,
    aircraft: Option<string>,
    tail: Option<string>,
    session: Option<string>,
    v: Option<U32>,
    meta: Option<Json>)

  datatype CmdPayload = CmdPayload(id: string, name: Option<string>, payload: Json)

  datatype AckPayload = AckPayload(
    id: string,
    ok: bool,
    error: Option<string>,
    response: Option<Json>,
    duplicate: Option<bool>)
  {
    /** What a successful `command` returns: an absent response reads as null. */
    function Answer(): Json {
      response.GetOr(Null)
    }

    predicate IsDuplicate() {
      duplicate == Some(true)
    }
  }

  datatype EventPayload = EventPayload(name: string, data: Json)

  datatype WireMsg =
    | Hello(hello: HelloPayload)
    | Ping(ping: Option<U64>)
    | Pong(pong: Option<U64>)
    | Cmd(cmd: CmdPayload)
    | Ack(ack: AckPayload)
    | Event(event: EventPayload)

  // ---- Encoding ----

  function OptStr(s: Option<string>): Option<Json> {
    if s.Some? then Some(Str(s.value)) else None
  }

  function OptBool(b: Option<bool>): Option<Json> {
    if b.Some? then Some(Bool(b.value)) else None
  }

  function OptTime(t: Option<U64>): Json {
    if t.Some? then Int(t.value as int) else Null
  }

  /** Fields without `skip_serializing_if` are written as null when absent. */
  function Print(m: WireMsg): Json {
    match m
    case Hello(h) =>
      Obj(map[
            "t" := Str("hello"),
            "client" := OptStr(h.client).GetOr(Null),
            "aircraft" := OptStr(h.aircraft).GetOr(Null),
            "tail" := OptStr(h.tail).GetOr(Null),
            "session" := OptStr(h.session).GetOr(Null),
            "v" := if h.v.Some? then Int(h.v.value as int) else Null]
          + Opt("meta", h.meta))
    case Ping(ts) => Obj(map["t" := Str("ping"), "ts" := OptTime(ts)])
    case Pong(ts) => Obj(map["t" := Str("pong"), "ts" := OptTime(ts)])
    case Cmd(c) =>
      Obj(map["t" := Str("cmd"), "id" := Str(c.id), "payload" := c.payload] + Opt("name", OptStr(c.name)))
    case Ack(a) =>
      Obj(map["t" := Str("ack"), "id" := Str(a.id), "ok" := Bool(a.ok)]
          + Opt("error", OptStr(a.error)) + Opt("response", a.response) + Opt("duplicate", OptBool(a.duplicate)))
    case Event(e) =>
      Obj(map["t" := Str("event"), "name" := Str(e.name), "data" := e.data])
  }

  // ---- Decoding ----

  /** The outcome of reading one optional field: null and absent are the same. */
  datatype Field<+T> = Malformed | Missing | Present(value: T) {
    function AsOption(): Option<T> {
      match this
      case Present(v) => Some(v)
      case _ => None
    }
  }

  function StrField(j: Json, key: string): Field<string> {
    match j.Get(key)
    case None => Missing
    case Some(Null) => Missing
    case Some(Str(s)) => Present(s)
    case _ => Malformed
  }

  function BoolField(j: Json, key: string): Field<bool> {
    match j.Get(key)
    case None => Missing
    case Some(Null) => Missing
    case Some(Bool(b)) => Present(b)
    case _ => Malformed
  }

  /** A number that is not an integer below the bound does not decode into an unsigned field. */
  function NatField(j: Json, key: string, bound: nat): (r: Field<nat>)
    ensures r.Present? ==> r.value < bound
  {
    match j.Get(key)
    case None => Missing
    case Some(Null) => Missing
    case Some(Int(n)) => if 0 <= n < bound then Present(n) else Malformed
    case _ => Malformed
  }

  function ValueField(j: Json, key: string): Option<Json> {
    match j.Get(key)
    case Some(Null) => None
    case v => v
  }

  function TimeField(j: Json): Field<U64> {
    match NatField(j, "ts", 0x1_0000_0000_0000_0000)
    case Present(n) => Present(n as U64)
    case Missing => Missing
    case Malformed => Malformed
  }

  function ParseHello(j: Json): Option<WireMsg> {
    var client := StrField(j, "client");
    var aircraft := StrField(j, "aircraft");
    var tail := StrField(j, "tail");
    var session := StrField(j, "session");
    var v := NatField(j, "v", 0x1_0000_0000);
    if client.Malformed? || aircraft.Malformed? || tail.Malformed? || session.Malformed? || v.Malformed? then
      None
    else
      Some(Hello(HelloPayload(
        client.AsOption(), aircraft.AsOption(), tail.AsOption(), session.AsOption(),
        if v.Present? then Some(v.value as U32) else None,
        ValueField(j, "meta"))))
  }

  function ParseCmd(j: Json): Option<WireMsg> {
    var id := StrField(j, "id");
    var name := StrField(j, "name");
    var payload := j.Get("payload");
    if id.Present? && !name.Malformed? && payload.Some? then
      Some(Cmd(CmdPayload(id.value, name.AsOption(), payload.value)))
    else
      None
  }

  function ParseAck(j: Json): Option<WireMsg> {
    var id := StrField(j, "id");
    var ok := BoolField(j, "ok");
    var error := StrField(j, "error");
    var duplicate := BoolField(j, "duplicate");
    if id.Present? && ok.Present? && !error.Malformed? && !duplicate.Malformed? then
      Some(Ack(AckPayload(id.value, ok.value, error.AsOption(), ValueField(j, "response"), duplicate.AsOption())))
    else
      None
  }

  function ParseEvent(j: Json): Option<WireMsg> {
    var name := StrField(j, "name");
    var data := j.Get("data");
    if name.Present? && data.Some? then Some(Event(EventPayload(name.value, data.value))) else None
  }

  function Parse(j: Json): Option<WireMsg> {
    match j.Tag()
    case Some(t) =>
      if t == "hello" then ParseHello(j)
      else if t == "ping" then
        var ts := TimeField(j);
        if ts.Malformed? then None else Some(Ping(ts.AsOption()))
      else if t == "pong" then
        var ts := TimeField(j);
        if ts.Malformed? then None else Some(Pong(ts.AsOption()))
      else if t == "cmd" then ParseCmd(j)
      else if t == "ack" then ParseAck(j)
      else if t == "event" then ParseEvent(j)
      else None
    case None => None
  }

  // ---- Round trip ----

  function DropNull(v: Option<Json>): Option<Json> {
    if v == Some(Null) then None else v
  }

  /** The message with the one distinction the encoding loses removed. */
  function Canonical(m: WireMsg): WireMsg {
    match m
    case Hello(h) => Hello(h.(meta := DropNull(h.meta)))
    case Ack(a) => Ack(a.(response := DropNull(a.response)))
    case _ => m
  }

  lemma HelloFields(h: HelloPayload)
    ensures var j := Print(Hello(h));
            && j.Tag() == Some("hello")
            && j.Get("client") == Some(OptStr(h.client).GetOr(Null))
            && j.Get("aircraft") == Some(OptStr(h.aircraft).GetOr(Null))
            && j.Get("tail") == Some(OptStr(h.tail).GetOr(Null))
            && j.Get("session") == Some(OptStr(h.session).GetOr(Null))
            && j.Get("v") == Some(if h.v.Some? then Int(h.v.value as int) else Null)
            && j.Get("meta") == h.meta
  {
  }

  lemma AckFields(a: AckPayload)
    ensures var j := Print(Ack(a));
            && j.Tag() == Some("ack")
            && j.Get("id") == Some(Str(a.id))
            && j.Get("ok") == Some(Bool(a.ok))
            && j.Get("error") == OptStr(a.error)
            && j.Get("response") == a.response
            && j.Get("duplicate") == OptBool(a.duplicate)
  {
  }

  lemma HelloRoundTrip(h: HelloPayload)
    ensures Parse(Print(Hello(h))) == Some(Canonical(Hello(h)))
  {
    hide Print;
    HelloFields(h);
    assert Parse(Print(Hello(h))) == ParseHello(Print(Hello(h)));
  }

  lemma AckRoundTrip(a: AckPayload)
    ensures Parse(Print(Ack(a))) == Some(Canonical(Ack(a)))
  {
    hide Print;
    AckFields(a);
    assert Parse(Print(Ack(a))) == ParseAck(Print(Ack(a)));
  }

  lemma CmdRoundTrip(c: CmdPayload)
    ensures Parse(Print(Cmd(c))) == Some(Cmd(c))
  {
    var j := Print(Cmd(c));
    assert j.Tag() == Some("cmd");
    assert j.Get("id") == Some(Str(c.id));
    assert j.Get("name") == OptStr(c.name);
    assert j.Get("payload") == Some(c.payload);
    assert Parse(j) == ParseCmd(j);
  }

  lemma EventRoundTrip(e: EventPayload)
    ensures Parse(Print(Event(e))) == Some(Event(e))
  {
    var j := Print(Event(e));
    assert j.Tag() == Some("event");
    assert j.Get("name") == Some(Str(e.name));
    assert j.Get("data") == Some(e.data);
    assert Parse(j) == ParseEvent(j);
  }

  lemma TimeRoundTrip(ts: Option<U64>)
    ensures Parse(Print(Ping(ts))) == Some(Ping(ts))
    ensures Parse(Print(Pong(ts))) == Some(Pong(ts))
  {
    var j, k := Print(Ping(ts)), Print(Pong(ts));
    assert j.Tag() == Some("ping") && j.Get("ts") == Some(OptTime(ts));
    assert k.Tag() == Some("pong") && k.Get("ts") == Some(OptTime(ts));
  }

  /** Decoding undoes encoding, up to `Some(Null)` becoming `None` in `response` and `meta`. */
  lemma RoundTrip(m: WireMsg)
    ensures Parse(Print(m)) == Some(Canonical(m))
  {
    match m
    case Hello(h) => HelloRoundTrip(h);
    case Ping(ts) => TimeRoundTrip(ts);
    case Pong(ts) => TimeRoundTrip(ts);
    case Cmd(c) => CmdRoundTrip(c);
    case Ack(a) => AckRoundTrip(a);
    case Event(e) => EventRoundTrip(e);
  }

  /** The exact messages that come back unchanged. */
  lemma RoundTripExact(m: WireMsg)
    ensures Parse(Print(m)) == Some(m)
       <==> !(m.Ack? && m.ack.response == Some(Null)) && !(m.Hello? && m.hello.meta == Some(Null))
  {
    RoundTrip(m);
  }

  /** The lost distinction cannot be seen by the caller of `command`. */
  lemma LossIsInvisible(a: AckPayload)
    ensures Parse(Print(Ack(a))).Some? && Parse(Print(Ack(a))).value.Ack?
    ensures var b := Parse(Print(Ack(a))).value.ack;
            b.id == a.id && b.ok == a.ok && b.error == a.error && b.Answer() == a.Answer()
            && b.IsDuplicate() == a.IsDuplicate()
  {
    RoundTrip(Ack(a));
  }

  /** Two messages share an encoding only if they are the same up to that distinction. */
  lemma PrintInjective(m: WireMsg, n: WireMsg)
    requires Print(m) == Print(n)
    ensures Canonical(m) == Canonical(n)
  {
    RoundTrip(m);
    RoundTrip(n);
  }

  /** Whatever decodes re-encodes to something that decodes the same: decoding is a projection. */
  lemma ParseIsStable(j: Json)
    ensures Parse(j).Some? ==> Parse(Print(Parse(j).value)) == Parse(j)
  {
    hide Print;
    if Parse(j).Some? {
      RoundTrip(Parse(j).value);
    }
  }

  /** Exactly which JSON values are rejected for a command. */
  lemma CmdDecodes(j: Json)
    requires j.Tag() == Some("cmd")
    ensures Parse(j).Some? <==>
            (exists s :: j.Get("id") == Some(Str(s)))
            && j.Get("payload").Some?
            && (j.Get("name").None? || j.Get("name").value.Null? || j.Get("name").value.Str?)
    ensures Parse(j).Some? ==> Parse(j).value.Cmd?
    ensures Parse(j).Some? ==> j.Get("id") == Some(Str(Parse(j).value.cmd.id))
    ensures Parse(j).Some? ==> j.Get("payload") == Some(Parse(j).value.cmd.payload)
  {
    if j.Get("id").Some? && j.Get("id").value.Str? {
      assert j.Get("id") == Some(Str(j.Get("id").value.s));
    }
  }

  /** An optional field may be absent or null. */
  predicate Lacks(j: Json, key: string) {
    j.Get(key).None? || j.Get(key).value.Null?
  }

  predicate LacksOrText(j: Json, key: string) {
    Lacks(j, key) || j.Get(key).value.Str?
  }

  function TextOf(j: Json, key: string): Option<string>
    requires LacksOrText(j, key)
  {
    if Lacks(j, key) then None else Some(j.Get(key).value.s)
  }

  /** Exactly which acks decode, and to what. */
  lemma AckDecodes(j: Json)
    requires j.Tag() == Some("ack")
    ensures Parse(j).Some? <==>
            && j.Get("id").Some? && j.Get("id").value.Str? && j.Get("ok").Some? && j.Get("ok").value.Bool?
            && LacksOrText(j, "error") && (Lacks(j, "duplicate") || j.Get("duplicate").value.Bool?)
    ensures Parse(j).Some? ==>
              Parse(j).value == Ack(AckPayload(
                j.Get("id").value.s, j.Get("ok").value.b, TextOf(j, "error"),
                if Lacks(j, "response") then None else j.Get("response"),
                if Lacks(j, "duplicate") then None else Some(j.Get("duplicate").value.b)))
  {
  }

  /** Exactly which hellos decode, and to what: the version has to fit 32 bits. */
  lemma HelloDecodes(j: Json)
    requires j.Tag() == Some("hello")
    ensures Parse(j).Some? <==>
            && LacksOrText(j, "client") && LacksOrText(j, "aircraft") && LacksOrText(j, "tail") && LacksOrText(j, "session")
            && (Lacks(j, "v") || (j.Get("v").value.Int? && 0 <= j.Get("v").value.n < 0x1_0000_0000))
    ensures Parse(j).Some? ==>
              Parse(j).value == Hello(HelloPayload(
                TextOf(j, "client"), TextOf(j, "aircraft"), TextOf(j, "tail"), TextOf(j, "session"),
                if Lacks(j, "v") then None else Some(j.Get("v").value.n as U32),
                if Lacks(j, "meta") then None else j.Get("meta")))
  {
    assert Parse(j) == ParseHello(j);
    hide Parse;
  }

  /** An event decodes if and only if it has a text name and some data, null included. */
  lemma EventDecodes(j: Json)
    requires j.Tag() == Some("event")
    ensures Parse(j).Some? <==> j.Get("name").Some? && j.Get("name").value.Str? && j.Get("data").Some?
    ensures Parse(j).Some? ==> Parse(j).value == Event(EventPayload(j.Get("name").value.s, j.Get("data").value))
  {
  }

  /** A ping or pong decodes if and only if it has no time or one that fits 64 bits. */
  lemma ProbeDecodes(j: Json)
    requires j.Tag() == Some("ping") || j.Tag() == Some("pong")
    ensures Parse(j).Some? <==>
            Lacks(j, "ts") || (j.Get("ts").value.Int? && 0 <= j.Get("ts").value.n < 0x1_0000_0000_0000_0000)
    ensures Parse(j).Some? ==>
              var ts := if Lacks(j, "ts") then None else Some(j.Get("ts").value.n as U64);
              Parse(j).value == if j.Tag() == Some("ping") then Ping(ts) else Pong(ts)
  {
  }

  /** Nothing else decodes. */
  lemma OnlyKnownTags(j: Json)
    requires Parse(j).Some?
    ensures j.Tag().Some? && j.Tag().value in {"hello", "ping", "pong", "cmd", "ack", "event"}
  {
  }

  // ---- Readiness ----

  function ReadyMsg(ready: bool): WireMsg {
    Event(EventPayload(READY_EVENT, Obj(map["ready" := Bool(ready)])))
  }

  /** How the host reads a readiness event: anything but a boolean counts as ready. */
  function ReadyValue(data: Json): bool {
    match data.Get("ready")
    case Some(Bool(b)) => b
    case _ => true
  }
}
