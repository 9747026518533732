/**
 * The Service Bus listener of the API: a dispatcher holding a mutable handler
 * table, the structural checks it makes on a message envelope, the per-message
 * decision to complete or dead-letter, and the endless receive loop, modelled
 * over a finite sequence of polls. Receiving, completing and dead-lettering are
 * broker calls; the model records them as actions.
 */
module QueueProcessor {
  import opened Wrappers
  import opened Json
  import Strings
  import Handlers

  /**
   * The handler functions that can be registered: the passthrough handler,
   * or any other handler, known by its name and modelled by what it returns
   * or raises.
   */
  datatype Handler = Passthrough | Registered(name: string, outcome: Result<Value>)

  function Invoke(h: Handler, payload: Value, http: Handlers.HttpOutcome): (r: Handlers.Handled)
    ensures h.Registered? ==> r.result == h.outcome
  {
    match h
    case Passthrough => Handlers.Passthrough(payload, http)
    case Registered(_, outcome) => Handlers.Handled(None, outcome)
  }

  /**
   * What `dispatch_message` did: the handler it called and the argument it
   * passed, if it called one, and the message of the `QueueProcessorError` it
   * raised, if it raised.
   */
  datatype Dispatched = Dispatched(call: Option<(Handler, Value)>, error: Option<string>)

  /** `str(v)` inside an f-string; a value whose text is not modelled shows its type name. */
  function Display(v: Value): string
  {
    match Show(v)
    case Some(s) => s
    case None => TypeLabel(v)
  }

  /**
   * The four structural checks of `dispatch_message`, in the order it makes
   * them. On success: the routing key and the payload.
   */
  function CheckEnvelope(body: Value): (r: Result<(Value, Value)>)
    ensures r.Ok? <==>
      body.Obj? && GetOr(body.fields, "routing", Null).Obj?
      && Truthy(GetOr(body.fields, "routing", Null))
      && Truthy(GetOr(GetOr(body.fields, "routing", Null).fields, "targetEndpoint", Null))
      && GetOr(body.fields, "payload", Null) != Null
    ensures r.Ok? ==>
      r.value.0 == GetOr(GetOr(body.fields, "routing", Null).fields, "targetEndpoint", Null)
      && r.value.1 == GetOr(body.fields, "payload", Null)
    ensures !body.Obj? ==> r == Err("Invalid message format - expected dict, got " + TypeName(body))
  {
    if !body.Obj? then Err("Invalid message format - expected dict, got " + TypeName(body))
    else
      var routing := GetOr(body.fields, "routing", Null);
      if !Truthy(routing) || !routing.Obj? then
        Err("Invalid routing format - expected dict, got " + TypeName(routing))
      else
        var target := GetOr(routing.fields, "targetEndpoint", Null);
        if !Truthy(target) then Err("No target endpoint specified in message")
        else
          var payload := GetOr(body.fields, "payload", Null);
          if payload == Null then Err("No payload found in message")
          else Ok((target, payload))
  }

  /**
   * `handlers.get(target) or handlers.get("default")`. The table is keyed by
   * str, so any other hashable key misses; a list or dict key raises
   * `TypeError`.
   */
  function SelectHandler(handlers: map<string, Handler>, target: Value): (r: Result<Option<Handler>>)
    ensures target.Str? && target.s in handlers ==> r == Ok(Some(handlers[target.s]))
    ensures r.Ok? && r.value.Some? && !(target.Str? && target.s in handlers) ==>
      "default" in handlers && r.value.value == handlers["default"]
    ensures r == Ok(None) <==>
      !target.List? && !target.Obj? && !(target.Str? && target.s in handlers) && "default" !in handlers
  {
    if target.List? || target.Obj? then Err("unhashable type: '" + TypeLabel(target) + "'")
    else if target.Str? && target.s in handlers then Ok(Some(handlers[target.s]))
    else if "default" in handlers then Ok(Some(handlers["default"]))
    else Ok(None)
  }

  const UnexpectedPrefix: string := "Unexpected error processing message: "

  /** `dispatch_message` against the handler table `handlers`. */
  function Dispatch(handlers: map<string, Handler>, body: Value, http: Handlers.HttpOutcome): (d: Dispatched)
    ensures CheckEnvelope(body).Err? ==> d == Dispatched(None, Some(CheckEnvelope(body).error))
    ensures d.call.Some? ==>
      CheckEnvelope(body).Ok? && d.call.value.1 == CheckEnvelope(body).value.1
      && SelectHandler(handlers, CheckEnvelope(body).value.0) == Ok(Some(d.call.value.0))
    ensures d.error.None? ==> d.call.Some?
    ensures d.call.Some? ==>
      (d.error.None? <==> Invoke(d.call.value.0, d.call.value.1, http).result.Ok?)
  {
    match CheckEnvelope(body)
    case Err(e) => Dispatched(None, Some(e))
    case Ok((target, payload)) =>
      match SelectHandler(handlers, target)
      case Err(e) => Dispatched(None, Some(UnexpectedPrefix + e))
      case Ok(None) => Dispatched(None, Some("No handler registered for endpoint: " + Display(target)))
      case Ok(Some(h)) =>
        var handled := Invoke(h, payload, http);
        if handled.result.Ok? then Dispatched(Some((h, payload)), None)
        else Dispatched(Some((h, payload)), Some(UnexpectedPrefix + handled.result.error))
  }

  /**
   * An endpoint with its own registration is handled by that handler, with
   * the envelope's payload, even when a different default is registered.
   */
  lemma SpecificHandlerWins(handlers: map<string, Handler>, body: Value, http: Handlers.HttpOutcome)
    requires CheckEnvelope(body).Ok?
    requires var t := CheckEnvelope(body).value.0; t.Str? && t.s in handlers
    ensures Dispatch(handlers, body, http).call ==
      Some((handlers[CheckEnvelope(body).value.0.s], CheckEnvelope(body).value.1))
    ensures "default" in handlers && handlers["default"] != handlers[CheckEnvelope(body).value.0.s] ==>
      Dispatch(handlers, body, http).call.value.0 != handlers["default"]
  {
  }

  /** An envelope for `endpoint` carrying an empty payload dict. */
  function EnvelopeFor(endpoint: string): Value
  {
    Obj([("routing", Obj([("targetEndpoint", Str(endpoint))])), ("payload", Obj([]))])
  }

  /** The table of the examples below: a handler of its own for "/ingest" beside the default passthrough. */
  function IngestTable(): map<string, Handler>
  {
    map["default" := Passthrough, "/ingest" := Registered("ingest", Ok(Str("done")))]
  }

  /** With `IngestTable`, "/ingest" goes to its own handler, not the default, and succeeds with it. */
  lemma OwnRegistrationOverridesDefault(http: Handlers.HttpOutcome)
    ensures Dispatch(IngestTable(), EnvelopeFor("/ingest"), http) ==
      Dispatched(Some((Registered("ingest", Ok(Str("done"))), Obj([]))), None)
  {
    var body := EnvelopeFor("/ingest");
    assert GetOr(body.fields, "routing", Null) == Obj([("targetEndpoint", Str("/ingest"))]);
    assert GetOr(body.fields, "payload", Null) == Obj([]);
    assert CheckEnvelope(body) == Ok((Str("/ingest"), Obj([])));
    assert SelectHandler(IngestTable(), Str("/ingest")) == Ok(Some(Registered("ingest", Ok(Str("done")))));
  }

  /**
   * With `IngestTable`, any other endpoint falls back to the default
   * passthrough, which refuses a payload without a path.
   */
  lemma OtherEndpointFallsBack(http: Handlers.HttpOutcome)
    ensures Dispatch(IngestTable(), EnvelopeFor("/other"), http) ==
      Dispatched(Some((Passthrough, Obj([]))), Some(UnexpectedPrefix + "Missing target_path in payload"))
  {
    var body := EnvelopeFor("/other");
    assert GetOr(body.fields, "routing", Null) == Obj([("targetEndpoint", Str("/other"))]);
    assert GetOr(body.fields, "payload", Null) == Obj([]);
    assert CheckEnvelope(body) == Ok((Str("/other"), Obj([])));
    assert "/other" !in IngestTable();
    assert SelectHandler(IngestTable(), Str("/other")) == Ok(Some(Passthrough));
    assert Invoke(Passthrough, Obj([]), http).result == Err("Missing target_path in payload");
  }

  // ---------------------------------------------------------------------
  // Per-message disposition

  datatype Disposition = Complete | DeadLetter(reason: string)

  /**
   * One received message: its body as `json.loads` reads it (`Err` is the
   * decode error), the HTTP exchange its handler would see, and the error
   * `complete_message` raises, if any.
   */
  datatype QueueMessage = QueueMessage(
    id: nat, body: Result<Value>, http: Handlers.HttpOutcome, completeError: Option<string>)

  /** How a message was handled: the dispatch made, if any, and how it was settled. */
  datatype Handling = Handling(dispatched: Option<Dispatched>, disposition: Disposition)

  /** The body of the `for msg in messages` loop for one message. */
  function Dispose(handlers: map<string, Handler>, m: QueueMessage): (h: Handling)
    ensures h.disposition == Complete <==>
      m.body.Ok? && h.dispatched.Some? && h.dispatched.value.error.None? && m.completeError.None?
    ensures m.body.Ok? && !m.body.value.Obj? ==> h == Handling(None, DeadLetter("Invalid message format"))
    ensures (m.body.Ok? && m.body.value.Obj?
             && !(HasKey(m.body.value.fields, "routing") && HasKey(m.body.value.fields, "payload"))) ==>
      h == Handling(None, DeadLetter("Missing required fields"))
    ensures h.dispatched.Some? ==>
      m.body.Ok? && h.dispatched.value == Dispatch(handlers, m.body.value, m.http)
    ensures h.dispatched.Some? && h.dispatched.value.error.Some? ==>
      h.disposition == DeadLetter(h.dispatched.value.error.value)
  {
    match m.body
    case Err(e) => Handling(None, DeadLetter(e))
    case Ok(v) =>
      if !v.Obj? then Handling(None, DeadLetter("Invalid message format"))
      else if !HasKey(v.fields, "routing") || !HasKey(v.fields, "payload") then
        Handling(None, DeadLetter("Missing required fields"))
      else
        var d := Dispatch(handlers, v, m.http);
        if d.error.Some? then Handling(Some(d), DeadLetter(d.error.value))
        else if m.completeError.Some? then Handling(Some(d), DeadLetter(m.completeError.value))
        else Handling(Some(d), Complete)
  }

  // ---------------------------------------------------------------------
  // The receive loop

  /** One `receive_messages(max_message_count=1)` call: a message, none, or a raised error. */
  datatype Poll = Delivered(msg: QueueMessage) | NoMessage | ReceiveFailed

  /** The broker-facing actions the loop takes. */
  datatype Action = Completed(id: nat) | DeadLettered(id: nat, reason: string) | Slept(seconds: nat)

  const RetryDelaySeconds: nat := 5

  function Step(handlers: map<string, Handler>, p: Poll): seq<Action>
  {
    match p
    case Delivered(m) => [Settle(m.id, Dispose(handlers, m).disposition)]
    case NoMessage => []
    case ReceiveFailed => [Slept(RetryDelaySeconds)]
  }

  /** `complete_message` or `dead_letter_message` for the message `id`. */
  function Settle(id: nat, disposition: Disposition): (a: Action)
    ensures !a.Slept? && a.id == id
  {
    match disposition
    case Complete => Completed(id)
    case DeadLetter(r) => DeadLettered(id, r)
  }

  /** The actions of the loop over the polls `ps`, in order. */
  function Trace(handlers: map<string, Handler>, ps: seq<Poll>): seq<Action>
  {
    if ps == [] then [] else Trace(handlers, ps[..|ps| - 1]) + Step(handlers, ps[|ps| - 1])
  }

  /** The ids of the messages delivered by `ps`, in order. */
  function DeliveredIds(ps: seq<Poll>): seq<nat>
  {
    if ps == [] then []
    else DeliveredIds(ps[..|ps| - 1]) + (if ps[|ps| - 1].Delivered? then [ps[|ps| - 1].msg.id] else [])
  }

  /** The ids of the messages settled (completed or dead-lettered) by `acts`, in order. */
  function SettledIds(acts: seq<Action>): seq<nat>
  {
    if acts == [] then []
    else SettledIds(acts[..|acts| - 1]) + (if acts[|acts| - 1].Slept? then [] else [acts[|acts| - 1].id])
  }

  function CountFailures(ps: seq<Poll>): nat
  {
    if ps == [] then 0 else CountFailures(ps[..|ps| - 1]) + (if ps[|ps| - 1].ReceiveFailed? then 1 else 0)
  }

  function CountSleeps(acts: seq<Action>): nat
  {
    if acts == [] then 0 else CountSleeps(acts[..|acts| - 1]) + (if acts[|acts| - 1].Slept? then 1 else 0)
  }

  lemma {:induction false} SettledIdsAppend(a: seq<Action>, b: seq<Action>)
    ensures SettledIds(a + b) == SettledIds(a) + SettledIds(b)
    decreases |b|
  {
    if b != [] {
      SettledIdsAppend(a, b[..|b| - 1]);
      assert (a + b)[..|a + b| - 1] == a + b[..|b| - 1];
    } else {
      assert a + b == a;
    }
  }

  lemma {:induction false} CountSleepsAppend(a: seq<Action>, b: seq<Action>)
    ensures CountSleeps(a + b) == CountSleeps(a) + CountSleeps(b)
    decreases |b|
  {
    if b != [] {
      CountSleepsAppend(a, b[..|b| - 1]);
      assert (a + b)[..|a + b| - 1] == a + b[..|b| - 1];
    } else {
      assert a + b == a;
    }
  }

  /**
   * Every delivered message is settled exactly once, in delivery order, and
   * there is no abandon or requeue; every receive failure costs one 5-second
   * sleep and the loop goes on.
   */
  lemma {:induction false} EveryMessageSettledOnce(handlers: map<string, Handler>, ps: seq<Poll>)
    ensures SettledIds(Trace(handlers, ps)) == DeliveredIds(ps)
    ensures CountSleeps(Trace(handlers, ps)) == CountFailures(ps)
    ensures forall a :: a in Trace(handlers, ps) && a.Slept? ==> a.seconds == RetryDelaySeconds
  {
    if ps != [] {
      var init, p := ps[..|ps| - 1], ps[|ps| - 1];
      EveryMessageSettledOnce(handlers, init);
      StepSettles(handlers, p);
      SettledIdsAppend(Trace(handlers, init), Step(handlers, p));
      CountSleepsAppend(Trace(handlers, init), Step(handlers, p));
    }
  }

  /** One poll settles the message it delivers, and sleeps 5 seconds when it fails. */
  lemma StepSettles(handlers: map<string, Handler>, p: Poll)
    ensures SettledIds(Step(handlers, p)) == (if p.Delivered? then [p.msg.id] else [])
    ensures CountSleeps(Step(handlers, p)) == (if p.ReceiveFailed? then 1 else 0)
    ensures forall a :: a in Step(handlers, p) && a.Slept? ==> a.seconds == RetryDelaySeconds
  {
    var s := Step(handlers, p);
    if s != [] {
      assert s[..|s| - 1] == [];
    }
  }

  // ---------------------------------------------------------------------
  // The objects

  class MessageDispatcher {
    var handlers: map<string, Handler>

    constructor()
      ensures handlers == map[]
    {
      handlers := map[];
    }

    /** `register_handler`: sets one entry, overwriting a previous registration. */
    method RegisterHandler(endpoint: string, handler: Handler)
      modifies this
      ensures handlers == old(handlers)[endpoint := handler]
      ensures handlers[endpoint] == handler
      ensures forall e :: e != endpoint && e in old(handlers) ==> e in handlers && handlers[e] == old(handlers)[e]
    {
      handlers := handlers[endpoint := handler];
    }

    /** `dispatch_message` on this dispatcher's current table. */
    method DispatchMessage(body: Value, http: Handlers.HttpOutcome) returns (d: Dispatched)
      ensures d == Dispatch(handlers, body, http)
    {
      var checked := CheckEnvelope(body);
      if checked.Err? {
        return Dispatched(None, Some(checked.error));
      }
      var (target, payload) := checked.value;
      var selected := SelectHandler(handlers, target);
      if selected.Err? {
        return Dispatched(None, Some(UnexpectedPrefix + selected.error));
      }
      if selected.value.None? {
        return Dispatched(None, Some("No handler registered for endpoint: " + Display(target)));
      }
      var handled := Invoke(selected.value.value, payload, http);
      if handled.result.Ok? {
        d := Dispatched(Some((selected.value.value, payload)), None);
      } else {
        d := Dispatched(Some((selected.value.value, payload)), Some(UnexpectedPrefix + handled.result.error));
      }
    }
  }

  class QueueProcessor {
    const dispatcher: MessageDispatcher

    constructor()
      ensures fresh(dispatcher) && dispatcher.handlers == map[]
    {
      dispatcher := new MessageDispatcher();
    }

    /** `process_messages` over the polls `ps`: the actions it takes, in order. */
    method ProcessMessages(ps: seq<Poll>) returns (log: seq<Action>)
      ensures log == Trace(dispatcher.handlers, ps)
    {
      log := [];
      var i := 0;
      while i < |ps|
        invariant 0 <= i <= |ps|
        invariant log == Trace(dispatcher.handlers, ps[..i])
      {
        assert ps[..i + 1][..i] == ps[..i];
        match ps[i] {
        case NoMessage =>
        case ReceiveFailed =>
          log := log + [Slept(RetryDelaySeconds)];
        case Delivered(m) =>
          var disposition: Disposition;
          if m.body.Err? {
            disposition := DeadLetter(m.body.error);
          } else if !m.body.value.Obj? {
            disposition := DeadLetter("Invalid message format");
          } else if !HasKey(m.body.value.fields, "routing") || !HasKey(m.body.value.fields, "payload") {
            disposition := DeadLetter("Missing required fields");
          } else {
            var d := dispatcher.DispatchMessage(m.body.value, m.http);
            if d.error.Some? {
              disposition := DeadLetter(d.error.value);
            } else if m.completeError.Some? {
              disposition := DeadLetter(m.completeError.value);
            } else {
              disposition := Complete;
            }
          }
          if disposition.Complete? {
            log := log + [Completed(m.id)];
          } else {
            log := log + [DeadLettered(m.id, disposition.reason)];
          }
        }
        i := i + 1;
      }
      assert ps[..|ps|] == ps;
    }
  }

  /** The wiring at API start-up: one processor whose only handler is the passthrough under "default". */
  method Startup() returns (p: QueueProcessor)
    ensures fresh(p) && fresh(p.dispatcher)
    ensures p.dispatcher.handlers == map["default" := Passthrough]
  {
    p := new QueueProcessor();
    p.dispatcher.RegisterHandler("default", Passthrough);
  }

  /** As wired, every envelope that passes the checks goes to the passthrough handler with its payload. */
  lemma WiredDispatchUsesPassthrough(body: Value, http: Handlers.HttpOutcome)
    requires CheckEnvelope(body).Ok?
    requires !CheckEnvelope(body).value.0.List? && !CheckEnvelope(body).value.0.Obj?
    ensures Dispatch(map["default" := Passthrough], body, http).call
      == Some((Passthrough, CheckEnvelope(body).value.1))
  {
  }
}
