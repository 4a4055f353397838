/** The WASM side (crates/infinity-bridge-wasm/src/bridge.rs) and how it fits the relay. */
module WasmBridge {
  import opened Base
  import opened Json
  import opened Wire
  import opened RequestIds
  import Relay

  datatype Answer = Ok(value: Json) | Err(message: string)

  datatype Invocation = Command(name: Option<string>, payload: Json) | Notify(event: string, data: Json)

  datatype Request = Request(requestId: string, invocation: Invocation)

  /** What a CommBus message asks of the handler; nothing if it is not an envelope. */
  function Unwrap(raw: Json): Option<Request> {
    match (raw.Get("requestId"), raw.Get("payload"))
    case (Some(Str(q)), Some(payload)) =>
      (match Parse(payload)
       case Some(Cmd(c)) => Some(Request(q, Command(c.name, c.payload)))
       case Some(Event(e)) => Some(Request(q, Notify(e.name, e.data)))
       case _ => Some(Request(q, Command(None, payload))))
    case _ => None
  }

  function Response(requestId: string, answer: Answer): Json {
    Obj(map["requestId" := Str(requestId), "ok" := Bool(answer.Ok?)]
        + Opt("response", if answer.Ok? then Some(answer.value) else None)
        + Opt("error", if answer.Err? then Some(Str(answer.message)) else None))
  }

  /** Everything one incoming message makes the bridge send, given what the handler answers. */
  function Responses(raw: Json, answer: Answer): seq<Json> {
    match Unwrap(raw)
    case Some(Request(q, Command(_, _))) => [Response(q, answer)]
    case _ => []
  }

  lemma ResponseFields(q: string, a: Answer)
    ensures var j := Response(q, a);
            && j.Get("requestId") == Some(Str(q)) && j.Get("ok") == Some(Bool(a.Ok?))
            && j.Get("response") == (if a.Ok? then Some(a.value) else None)
            && j.Get("error") == (if a.Err? then Some(Str(a.message)) else None)
            && j.Tag() == None
  {
  }

  // ---- Wrapping and unwrapping ----

  lemma EnvelopeFields(q: string, msg: Json)
    ensures Relay.Envelope(q, msg).Get("requestId") == Some(Str(q))
    ensures Relay.Envelope(q, msg).Get("payload") == Some(msg)
  {
  }

  /**
   * Any command message the relay wraps is answered once under its request id. The handler sees
   * the original name and payload exactly when the message has a payload and no malformed name;
   * otherwise it sees the whole message as an unnamed payload.
   */
  lemma WrappedCommand(q: string, msg: Json, id: string, answer: Answer)
    requires msg.Tag() == Some("cmd") && msg.Get("id") == Some(Str(id))
    ensures Responses(Relay.Envelope(q, msg), answer) == [Response(q, answer)]
    ensures var seen := Unwrap(Relay.Envelope(q, msg));
            var decodes := msg.Get("payload").Some?
                           && (msg.Get("name").None? || msg.Get("name").value.Null? || msg.Get("name").value.Str?);
            if decodes
            then seen == Some(Request(q, Command(StrField(msg, "name").AsOption(), msg.Get("payload").value)))
            else seen == Some(Request(q, Command(None, msg)))
  {
    hide Relay.Envelope, Response;
    EnvelopeFields(q, msg);
    CmdDecodes(msg);
  }

  /** A command sent by the host reaches the handler with its own name and payload. */
  lemma HostCommandUnwraps(q: string, c: CmdPayload)
    ensures Unwrap(Relay.Envelope(q, Print(Cmd(c)))) == Some(Request(q, Command(c.name, c.payload)))
  {
    hide Relay.Envelope, Print, Parse;
    EnvelopeFields(q, Print(Cmd(c)));
    CmdRoundTrip(c);
  }

  /**
   * An envelope around anything that is neither a command nor an event of the wire format is a command
   * too: the handler sees the whole payload, unnamed, and answers under the request id.
   */
  lemma OtherEnvelope(q: string, payload: Json, answer: Answer)
    requires match Parse(payload)
             case Some(Cmd(_)) => false
             case Some(Event(_)) => false
             case _ => true
    ensures var raw := Obj(map["requestId" := Str(q), "payload" := payload]);
            var response := Obj(if answer.Ok? then map["requestId" := Str(q), "ok" := Bool(true), "response" := answer.value]
                                else map["requestId" := Str(q), "ok" := Bool(false), "error" := Str(answer.message)]);
            Unwrap(raw) == Some(Request(q, Command(None, payload))) && Responses(raw, answer) == [response]
  {
    var raw := Obj(map["requestId" := Str(q), "payload" := payload]);
    assert raw.Get("requestId") == Some(Str(q)) && raw.Get("payload") == Some(payload);
    hide Parse;
    var base := map["requestId" := Str(q), "ok" := Bool(answer.Ok?)];
    if answer.Ok? {
      assert base + map["response" := answer.value] + map[] == base["response" := answer.value];
    } else {
      assert base + map[] + map["error" := Str(answer.message)] == base["error" := Str(answer.message)];
    }
  }

  /** What has no text request id, or no payload, is no envelope: no handler runs and nothing is sent. */
  lemma NoEnvelope(raw: Json, answer: Answer)
    requires !(raw.Get("requestId").Some? && raw.Get("requestId").value.Str? && raw.Get("payload").Some?)
    ensures Unwrap(raw) == None && Responses(raw, answer) == []
  {
  }

  /** An event sent by the host reaches the event handler and is not answered. */
  lemma HostEventUnwraps(q: string, e: EventPayload, answer: Answer)
    ensures Unwrap(Relay.Envelope(q, Print(Event(e)))) == Some(Request(q, Notify(e.name, e.data)))
    ensures Responses(Relay.Envelope(q, Print(Event(e))), answer) == []
  {
    hide Relay.Envelope, Print, Parse;
    EnvelopeFields(q, Print(Event(e)));
    EventRoundTrip(e);
  }

  /** The relay takes a bridge response for an answer, and for nothing else. */
  lemma ResponseSettles(s: Relay.State, q: string, answer: Answer)
    ensures Relay.OnWasmMessage(s, Response(q, answer))
         == if q !in s.pending then s
            else if answer.Ok? then Relay.Settle(s, q, Relay.AckOk(s.pending[q].cmdId, Some(answer.value)))
            else Relay.Settle(s, q, Relay.AckErr(s.pending[q].cmdId, answer.message))
  {
    hide Response, Relay.Settle, Relay.AckOk, Relay.AckErr;
    ResponseFields(q, answer);
  }

  /** The relay forwards a bridge event unchanged and never takes it for a response. */
  lemma EventForwards(s: Relay.State, e: EventPayload)
    ensures Relay.OnWasmMessage(s, Print(Event(e))) == Relay.WsSend(s, Print(Event(e)), Relay.Forwards)
  {
    var j := Print(Event(e));
    assert j.Get("requestId") == None && j.Tag() == Some("event");
    hide Print, Relay.WsSend;
  }

  /** From the handler's answer to the ack the host decodes: same command, same outcome. */
  lemma AnswerReachesHost(cmdId: string, answer: Answer)
    ensures var frame := if answer.Ok? then Relay.AckOk(cmdId, Some(answer.value)) else Relay.AckErr(cmdId, answer.message);
            var m := Parse(frame);
            && m.Some? && m.value.Ack? && m.value.ack.id == cmdId && m.value.ack.ok == answer.Ok?
            && !m.value.ack.IsDuplicate()
            && (answer.Ok? ==> m.value.ack.Answer() == answer.value)
            && (answer.Err? ==> m.value.ack.error == Some(answer.message))
  {
    hide Print, Parse;
    AckRoundTrip(AckPayload(cmdId, true, None, Some(if answer.Ok? then answer.value else Null), None));
    AckRoundTrip(AckPayload(cmdId, false, Some(if answer.Err? then answer.message else ""), None, None));
  }

  // ---- Router and dispatch ----

  function UnknownCommand(name: Option<string>): Answer {
    Err("UNKNOWN_COMMAND: " + name.GetOr("<unnamed>"))
  }

  /** Handlers are modelled as functions of their argument. */
  class Router {
    var commands: seq<(string, Json -> Answer)>
    var events: seq<string>
    var fallback: Option<(Option<string>, Json) -> Answer>

    constructor ()
      ensures commands == [] && events == [] && fallback == None
    {
      commands, events, fallback := [], [], None;
    }

    method AddCommand(name: string, handler: Json -> Answer)
      modifies this`commands
      ensures commands == old(commands) + [(name, handler)]
    {
      commands := commands + [(name, handler)];
    }

    method AddEvent(name: string)
      modifies this`events
      ensures events == old(events) + [name]
    {
      events := events + [name];
    }

    method SetFallback(handler: (Option<string>, Json) -> Answer)
      modifies this`fallback
      ensures fallback == Some(handler)
    {
      fallback := Some(handler);
    }

    /** k is the first registered command of this name. */
    ghost predicate Registered(name: Option<string>, k: nat)
      reads this
    {
      k < |commands| && name == Some(commands[k].0) && forall j :: 0 <= j < k ==> commands[j].0 != commands[k].0
    }

    /** The first handler registered under the name answers, else the fallback, else an error. */
    ghost predicate Answers(name: Option<string>, payload: Json, r: Answer)
      reads this
    {
      && (forall k: nat :: Registered(name, k) ==> r == commands[k].1(payload))
      && ((name.None? || forall k: nat :: k < |commands| ==> commands[k].0 != name.value) ==>
            r == if fallback.Some? then fallback.value(name, payload) else UnknownCommand(name))
    }

    method OnCommand(name: Option<string>, payload: Json) returns (r: Answer)
      ensures Answers(name, payload, r)
    {
      if name.Some? {
        for i := 0 to |commands|
          invariant forall j :: 0 <= j < i ==> commands[j].0 != name.value
        {
          if commands[i].0 == name.value {
            assert forall k: nat :: Registered(name, k) ==> k == i;
            return commands[i].1(payload);
          }
        }
      }
      if fallback.Some? {
        return fallback.value(name, payload);
      }
      r := UnknownCommand(name);
    }

    /** The index of the one event handler that runs, if any. */
    method OnEvent(name: string) returns (r: Option<nat>)
      ensures r.Some? ==> r.value < |events| && events[r.value] == name && name !in events[..r.value]
      ensures r.None? ==> name !in events
    {
      for i := 0 to |events|
        invariant name !in events[..i]
      {
        if events[i] == name {
          return Some(i);
        }
      }
      r := None;
    }
  }

  class Bridge {
    const router: Router
    var sent: seq<Json>              // messages put on the response event
    var notified: seq<(nat, Json)>   // event handlers run

    constructor (router: Router)
      ensures this.router == router && sent == [] && notified == []
    {
      this.router := router;
      sent, notified := [], [];
    }

    /** One incoming message: at most one handler runs, and only a command is answered. */
    method Dispatch(raw: Json) returns (ghost answer: Answer)
      modifies this`sent, this`notified
      ensures sent == old(sent) + Responses(raw, answer)
      ensures forall q, name, payload ::
                Unwrap(raw) == Some(Request(q, Command(name, payload))) ==> router.Answers(name, payload, answer)
      ensures |old(notified)| <= |notified| <= |old(notified)| + 1 && old(notified) <= notified
      ensures |notified| > |old(notified)| ==>
                exists q, name, data :: Unwrap(raw) == Some(Request(q, Notify(name, data)))
                  && notified[|old(notified)|].1 == data
                  && notified[|old(notified)|].0 < |router.events|
                  && router.events[notified[|old(notified)|].0] == name
      ensures forall q, name, data :: Unwrap(raw) == Some(Request(q, Notify(name, data))) && name in router.events ==>
                |notified| > |old(notified)|
    {
      answer := Err("");
      match Unwrap(raw) {
        case None =>
        case Some(Request(q, Command(name, payload))) =>
          var result := router.OnCommand(name, payload);
          answer := result;
          sent := sent + [Response(q, result)];
        case Some(Request(q, Notify(name, data))) =>
          var handler := router.OnEvent(name);
          if handler.Some? {
            notified := notified + [(handler.value, data)];
          }
      }
    }

    method Emit(name: string, data: Json)
      modifies this`sent
      ensures sent == old(sent) + [Print(Event(EventPayload(name, data)))]
    {
      sent := sent + [Print(Event(EventPayload(name, data)))];
    }
  }
}
