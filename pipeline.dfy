/**
 * The two halves of the queue pipeline put together: the envelopes the public
 * forwarding endpoint sends, received by the API's listener as it is wired at
 * start-up (a single passthrough handler under "default").
 */
module Pipeline {
  import opened Wrappers
  import opened Json
  import RequestModels
  import FrontendApi
  import QueueProcessor
  import Handlers

  /** The handler table the API registers at start-up. */
  const Wired: map<string, QueueProcessor.Handler> := map["default" := QueueProcessor.Passthrough]

  /** An envelope built by `create_envelope` with a routing key passes the dispatcher's checks. */
  lemma EnvelopePassesChecks(payload: Dict, endpoint: string, correlationId: string, timestamp: string)
    requires endpoint != []
    ensures var env := FrontendApi.CreateEnvelope(payload, endpoint, correlationId, timestamp);
      QueueProcessor.CheckEnvelope(env) == Ok((Str(endpoint), Obj(payload)))
      && HasKey(env.fields, "routing") && HasKey(env.fields, "payload")
  {
    RoutedEnvelopeChecks(FrontendApi.CreateEnvelope(payload, endpoint, correlationId, timestamp), endpoint, Obj(payload));
  }

  /** An object routed to a non-empty endpoint and carrying a payload passes the checks. */
  lemma RoutedEnvelopeChecks(env: Value, endpoint: string, payload: Value)
    requires endpoint != [] && payload != Null && env.Obj?
    requires Get(env.fields, "routing") == Some(Obj([("targetEndpoint", Str(endpoint))]))
    requires Get(env.fields, "payload") == Some(payload)
    ensures QueueProcessor.CheckEnvelope(env) == Ok((Str(endpoint), payload))
  {
    var routing := Obj([("targetEndpoint", Str(endpoint))]);
    assert GetOr(routing.fields, "targetEndpoint", Null) == Str(endpoint);
  }

  /** Every envelope the forwarding endpoint sends passes the dispatcher's structural checks. */
  lemma SentEnvelopesPassChecks(body: Value, correlationId: string, timestamp: string)
    requires FrontendApi.ForwardRequest(body, correlationId, timestamp, false).status == 202
    ensures var env := FrontendApi.ForwardRequest(body, correlationId, timestamp, false).sent.value;
      QueueProcessor.CheckEnvelope(env).Ok? && QueueProcessor.CheckEnvelope(env).value.1.Obj?
  {
    FrontendApi.ForwardAccepted(body, correlationId, timestamp, false);
    var path := GetOr(body.fields, "target_path", Null);
    var target := FrontendApi.Route(path.s).value;
    var dump := RequestModels.Validate(target.model, body.fields).value;
    EnvelopePassesChecks(dump, target.endpoint, correlationId, timestamp);
  }

  /** The settlement the wired listener gives a message carrying `env`. */
  function WiredDisposition(env: Value, id: nat, http: Handlers.HttpOutcome): QueueProcessor.Disposition
  {
    QueueProcessor.Dispose(Wired, QueueProcessor.QueueMessage(id, Ok(env), http, None)).disposition
  }

  const MissingPath: string := QueueProcessor.UnexpectedPrefix + "Missing target_path in payload"

  /** An envelope whose payload lacks `target_path` is dead-lettered by the wired listener. */
  lemma PathlessEnvelopeDeadLettered(
    payload: Dict, endpoint: string, correlationId: string, timestamp: string, id: nat, http: Handlers.HttpOutcome)
    requires endpoint != [] && !HasKey(payload, "target_path")
    ensures WiredDisposition(FrontendApi.CreateEnvelope(payload, endpoint, correlationId, timestamp), id, http)
      == QueueProcessor.DeadLetter(MissingPath)
  {
    var env := FrontendApi.CreateEnvelope(payload, endpoint, correlationId, timestamp);
    EnvelopePassesChecks(payload, endpoint, correlationId, timestamp);
    assert Handlers.Passthrough(Obj(payload), http).result == Err("Missing target_path in payload");
  }

  /**
   * As written, the payload the endpoint sends is the model dump, which never
   * holds `target_path`; the wired passthrough handler therefore raises, and
   * every forwarded message is dead-lettered without reaching the API.
   */
  lemma ForwardedMessagesDeadLettered(
    body: Value, correlationId: string, timestamp: string, id: nat, http: Handlers.HttpOutcome)
    requires FrontendApi.ForwardRequest(body, correlationId, timestamp, false).status == 202
    ensures WiredDisposition(FrontendApi.ForwardRequest(body, correlationId, timestamp, false).sent.value, id, http)
      == QueueProcessor.DeadLetter(MissingPath)
  {
    FrontendApi.ForwardAccepted(body, correlationId, timestamp, false);
    FrontendApi.SentPayloadIsDump(body, correlationId, timestamp);
    var path := GetOr(body.fields, "target_path", Null);
    var target := FrontendApi.Route(path.s).value;
    var dump := RequestModels.Validate(target.model, body.fields).value;
    PathlessEnvelopeDeadLettered(dump, target.endpoint, correlationId, timestamp, id, http);
  }

  /**
   * The evidently intended envelope: the validated fields plus the
   * `target_path` the request named, so that the passthrough handler can
   * replay the request against the API.
   */
  function ForwardedEnvelope(dump: Dict, path: string, endpoint: string, correlationId: string, timestamp: string): (env: Value)
    ensures env.Obj? && Get(env.fields, "payload") == Some(Obj(Put(dump, "target_path", Str(path))))
    ensures Get(env.fields, "routing") == Some(Obj([("targetEndpoint", Str(endpoint))]))
  {
    FrontendApi.CreateEnvelope(Put(dump, "target_path", Str(path)), endpoint, correlationId, timestamp)
  }

  /**
   * With the corrected envelope, the wired listener posts the validated fields
   * to `http://localhost:80` + `target_path`, and completes the message exactly
   * when the API answers with a 2xx status.
   */
  lemma {:induction false} CorrectedEnvelopeReachesApi(
    dump: Dict, path: string, endpoint: string, correlationId: string, timestamp: string,
    id: nat, http: Handlers.HttpOutcome)
    requires endpoint != [] && path != [] && !HasKey(dump, "target_path")
    ensures var payload := Obj(Put(dump, "target_path", Str(path)));
      Handlers.Passthrough(payload, http).request == Some(Handlers.Post(Handlers.LocalBase + path, dump))
    ensures var env := ForwardedEnvelope(dump, path, endpoint, correlationId, timestamp);
      WiredDisposition(env, id, http) == QueueProcessor.Complete <==> http.Response? && Handlers.IsSuccess(http.status)
  {
    var payload := Put(dump, "target_path", Str(path));
    RemovePutFresh(dump, "target_path", Str(path));
    EnvelopePassesChecks(payload, endpoint, correlationId, timestamp);
    assert GetOr(payload, "target_path", Null) == Str(path);
  }

  /** The forwarding endpoint's accepted requests satisfy the corrected lemma's preconditions. */
  lemma AcceptedRequestsFitCorrection(body: Value, correlationId: string, timestamp: string)
    requires FrontendApi.ForwardRequest(body, correlationId, timestamp, false).status == 202
    ensures var path := GetOr(body.fields, "target_path", Null).s;
      var target := FrontendApi.Route(path).value;
      var dump := RequestModels.Validate(target.model, body.fields).value;
      target.endpoint != [] && path != [] && !HasKey(dump, "target_path")
  {
    FrontendApi.ForwardAcceptedValid(body, correlationId, timestamp, false);
    var path := GetOr(body.fields, "target_path", Null).s;
    FrontendApi.RoutedModelOmitsTargetPath(path);
    FrontendApi.RoutedEndpointNonEmpty(path);
  }
}
