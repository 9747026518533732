/**
 * The public forwarding endpoint `POST /api/forward`: it validates a request by
 * its `target_path`, wraps the validated fields in an envelope with a
 * correlation id, a timestamp and a routing key, and puts the envelope on the
 * queue. The uuid, the clock and the queue send's success are parameters.
 */
module FrontendApi {
  import opened Wrappers
  import opened Json
  import Strings
  import RequestModels

  /** The path the forwarding route is served at (`request.path` inside it). */
  const ForwardPath: string := "/api/forward"

  const ExactPaths: seq<string> := ["/process-podcast", "/upsert-podcast", "/summarize-episode"]
  const UserEmailsPrefix: string := "/send-user-emails/"
  const EpisodeSummaryPrefix: string := "/send-episode-summary/"

  /** The routing key an accepted path is sent under, and the model validating its body. */
  datatype Target = Target(endpoint: string, model: seq<RequestModels.Field>)

  /** The if/elif chain choosing a target for `target_path`. */
  function Route(path: string): (r: Option<Target>)
    ensures r.None? <==>
      path !in ExactPaths && !Strings.StartsWith(path, UserEmailsPrefix)
      && !Strings.StartsWith(path, EpisodeSummaryPrefix)
    ensures path in ExactPaths ==> r.Some? && r.value.endpoint == path[1..]
    ensures path !in ExactPaths && Strings.StartsWith(path, UserEmailsPrefix) ==>
      r == Some(Target("send-user-emails", RequestModels.UserEmailRequest))
    ensures (path !in ExactPaths && !Strings.StartsWith(path, UserEmailsPrefix)
             && Strings.StartsWith(path, EpisodeSummaryPrefix)) ==>
      r == Some(Target("send-episode-summary", RequestModels.EpisodeEmailRequest))
    ensures r.Some? ==> RequestModels.UniqueNames(r.value.model)
  {
    RequestModels.ModelsHaveUniqueNames();
    if path == "/process-podcast" then Some(Target("process-podcast", RequestModels.PodcastFeedRequest))
    else if path == "/upsert-podcast" then Some(Target("upsert-podcast", RequestModels.PodcastUpsertRequest))
    else if path == "/summarize-episode" then Some(Target("summarize-episode", RequestModels.EpisodeSummaryRequest))
    else if Strings.StartsWith(path, UserEmailsPrefix) then Some(Target("send-user-emails", RequestModels.UserEmailRequest))
    else if Strings.StartsWith(path, EpisodeSummaryPrefix) then Some(Target("send-episode-summary", RequestModels.EpisodeEmailRequest))
    else None
  }

  /** The bare prefixes without their trailing slash are not routes. */
  lemma BarePrefixesRejected()
    ensures Route("/send-user-emails").None?
    ensures Route("/send-episode-summary").None?
  {
    assert "/send-episode-summary"[..|UserEmailsPrefix|][6] != UserEmailsPrefix[6];
  }

  /** `create_envelope`: the payload plus metadata and routing sections. */
  function CreateEnvelope(payload: Dict, targetEndpoint: string, correlationId: string, timestamp: string): (env: Value)
    ensures env.Obj? && Keys(env.fields) == ["payload", "metadata", "routing"]
    ensures Get(env.fields, "payload") == Some(Obj(payload))
    ensures Get(env.fields, "metadata") == Some(Obj([
      ("correlationId", Str(correlationId)), ("timestamp", Str(timestamp)), ("sourceEndpoint", Str(ForwardPath))]))
    ensures Get(env.fields, "routing") == Some(Obj([("targetEndpoint", Str(targetEndpoint))]))
  {
    Obj([
      ("payload", Obj(payload)),
      ("metadata", Obj([
        ("correlationId", Str(correlationId)),
        ("timestamp", Str(timestamp)),
        ("sourceEndpoint", Str(ForwardPath))])),
      ("routing", Obj([("targetEndpoint", Str(targetEndpoint))]))
    ])
  }

  /** The HTTP status and JSON body returned, and the envelope put on the queue, if any. */
  datatype Reply = Reply(status: int, body: Dict, sent: Option<Value>)

  function ErrorReply(status: int, message: string): Reply
  {
    Reply(status, [("error", Str(message))], None)
  }

  /**
   * `forward_request` on the parsed JSON body. `sendFails` is the queue send
   * raising. A body that is truthy but not a dict, or a truthy `target_path`
   * that is not a str, raises `AttributeError` inside the handler and gets 500.
   */
  function ForwardRequest(body: Value, correlationId: string, timestamp: string, sendFails: bool): (out: Reply)
    ensures out.sent.Some? <==> out.status == 202
    ensures out.status in {202, 400, 422, 500}
  {
    if !Truthy(body) then ErrorReply(400, "Request body must contain valid JSON")
    else if !body.Obj? then ErrorReply(500, "Failed to process request")
    else
      var path := GetOr(body.fields, "target_path", Null);
      if !Truthy(path) then ErrorReply(400, "target_path is required")
      else if !path.Str? then ErrorReply(500, "Failed to process request")
      else match Route(path.s)
        case None => ErrorReply(400, "Invalid target_path: " + path.s)
        case Some(target) => ForwardTo(target, body.fields, correlationId, timestamp, sendFails)
  }

  /** The routed half of `forward_request`: validate, build the envelope, send it. */
  function ForwardTo(target: Target, fields: Dict, correlationId: string, timestamp: string, sendFails: bool): (out: Reply)
    requires RequestModels.UniqueNames(target.model)
    ensures out.status == 202 <==> RequestModels.Validate(target.model, fields).Ok? && !sendFails
    ensures out.status == 422 <==> RequestModels.Validate(target.model, fields).Err?
    ensures out.status in {202, 422, 500} && (out.sent.Some? <==> out.status == 202)
    ensures out.status == 202 ==> out == AcceptedReply(
      CreateEnvelope(RequestModels.Validate(target.model, fields).value, target.endpoint, correlationId, timestamp),
      correlationId, timestamp)
  {
    match RequestModels.Validate(target.model, fields)
    case Err(e) => Reply(422, [("error", Str("Validation error")), ("details", Str(e))], None)
    case Ok(dump) =>
      var envelope := CreateEnvelope(dump, target.endpoint, correlationId, timestamp);
      if sendFails then ErrorReply(500, "Failed to process request")
      else AcceptedReply(envelope, correlationId, timestamp)
  }

  /** The 202 reply for a sent envelope: it echoes the correlation id and the timestamp. */
  function AcceptedReply(envelope: Value, correlationId: string, timestamp: string): (out: Reply)
    ensures out.status == 202 && out.sent == Some(envelope)
    ensures Get(out.body, "correlationId") == Some(Str(correlationId))
    ensures Get(out.body, "timestamp") == Some(Str(timestamp))
    ensures Get(out.body, "status") == Some(Str("queued"))
  {
    var fields := [
      ("message", Str("Request accepted for processing")),
      ("correlationId", Str(correlationId)),
      ("status", Str("queued")),
      ("timestamp", Str(timestamp))];
    assert Get(fields[3..], "timestamp") == Some(Str(timestamp));
    assert Get(fields[2..], "timestamp") == Some(Str(timestamp));
    Reply(202, fields, Some(envelope))
  }

  /** An empty body, or a dict body without a truthy `target_path`, is refused with 400 and nothing is sent. */
  lemma ForwardRejectsMissingInput(body: Value, correlationId: string, timestamp: string, sendFails: bool)
    ensures var out := ForwardRequest(body, correlationId, timestamp, sendFails);
      (!Truthy(body) ==> out == ErrorReply(400, "Request body must contain valid JSON")) &&
      (Truthy(body) && body.Obj? && !Truthy(GetOr(body.fields, "target_path", Null)) ==>
        out == ErrorReply(400, "target_path is required"))
  {
  }

  /** A 400 for a body with a truthy `target_path` means the path is a str that no route accepts. */
  lemma ForwardRejectsUnknownPath(body: Value, correlationId: string, timestamp: string, sendFails: bool)
    requires Truthy(body) && body.Obj? && Truthy(GetOr(body.fields, "target_path", Null))
    requires ForwardRequest(body, correlationId, timestamp, sendFails).status == 400
    ensures var path := GetOr(body.fields, "target_path", Null);
      path.Str? && Route(path.s).None? &&
      ForwardRequest(body, correlationId, timestamp, sendFails) == ErrorReply(400, "Invalid target_path: " + path.s)
  {
  }

  /** Conversely, a dict body whose `target_path` is a non-empty str that no route accepts gets 400 and nothing is sent. */
  lemma UnknownPathRejected(body: Value, correlationId: string, timestamp: string, sendFails: bool)
    requires body.Obj?
    requires var path := GetOr(body.fields, "target_path", Null); path.Str? && path.s != [] && Route(path.s).None?
    ensures var out := ForwardRequest(body, correlationId, timestamp, sendFails);
      out == ErrorReply(400, "Invalid target_path: " + GetOr(body.fields, "target_path", Null).s) && out.sent.None?
  {
  }

  /**
   * A 202 reply means the path was routed and the body validated, the envelope of
   * the dumped fields was sent, and the reply echoes its correlation id and timestamp.
   */
  lemma ForwardAccepted(body: Value, correlationId: string, timestamp: string, sendFails: bool)
    requires ForwardRequest(body, correlationId, timestamp, sendFails).status == 202
    ensures body.Obj? && !sendFails
    ensures var path := GetOr(body.fields, "target_path", Null);
      path.Str? && Route(path.s).Some? &&
      var target := Route(path.s).value;
      var out := ForwardRequest(body, correlationId, timestamp, sendFails);
      RequestModels.Validate(target.model, body.fields).Ok? &&
      out.sent == Some(CreateEnvelope(RequestModels.Validate(target.model, body.fields).value,
                                      target.endpoint, correlationId, timestamp)) &&
      Get(out.body, "correlationId") == Some(Str(correlationId)) &&
      Get(out.body, "timestamp") == Some(Str(timestamp)) &&
      Get(out.body, "status") == Some(Str("queued"))
  {
    var path := GetOr(body.fields, "target_path", Null);
    assert body.Obj? && path.Str? && Route(path.s).Some?;
  }

  /** A 202 reply means the body is a dict whose `target_path` is routed and whose fields validate. */
  lemma ForwardAcceptedValid(body: Value, correlationId: string, timestamp: string, sendFails: bool)
    requires ForwardRequest(body, correlationId, timestamp, sendFails).status == 202
    ensures body.Obj? && GetOr(body.fields, "target_path", Null).Str?
    ensures var path := GetOr(body.fields, "target_path", Null).s;
      Route(path).Some? && RequestModels.Validate(Route(path).value.model, body.fields).Ok?
  {
  }

  /** A 422 reply means the path was routed and its model refused the body; nothing is sent. */
  lemma ForwardValidationFailure(body: Value, correlationId: string, timestamp: string, sendFails: bool)
    requires ForwardRequest(body, correlationId, timestamp, sendFails).status == 422
    ensures body.Obj?
    ensures var path := GetOr(body.fields, "target_path", Null);
      path.Str? && Route(path.s).Some? &&
      RequestModels.Validate(Route(path.s).value.model, body.fields).Err?
  {
  }

  /** The three exact paths are routed to their own name without the leading '/'. */
  lemma ExactRoutes()
    ensures Route("/process-podcast") == Some(Target("process-podcast", RequestModels.PodcastFeedRequest))
    ensures Route("/upsert-podcast") == Some(Target("upsert-podcast", RequestModels.PodcastUpsertRequest))
    ensures Route("/summarize-episode") == Some(Target("summarize-episode", RequestModels.EpisodeSummaryRequest))
  {
  }

  /** No routed model declares `target_path`. */
  lemma RoutedModelOmitsTargetPath(path: string)
    requires Route(path).Some?
    ensures "target_path" !in RequestModels.Names(Route(path).value.model)
  {
    RequestModels.NoModelDeclaresTargetPath();
  }

  /** A routed path is non-empty, and so is the routing key it is sent under. */
  lemma RoutedEndpointNonEmpty(path: string)
    requires Route(path).Some?
    ensures path != [] && Route(path).value.endpoint != []
  {
  }

  /** The envelope a successful forward sends carries the payload the model dumped and nothing undeclared. */
  lemma SentPayloadIsDump(body: Value, correlationId: string, timestamp: string)
    requires ForwardRequest(body, correlationId, timestamp, false).status == 202
    ensures var env := ForwardRequest(body, correlationId, timestamp, false).sent.value;
      var payload := Get(env.fields, "payload").value;
      payload.Obj? && !HasKey(payload.fields, "target_path")
      && forall k :: HasKey(payload.fields, k) ==> HasKey(body.fields, k)
  {
    ForwardAccepted(body, correlationId, timestamp, false);
    RoutedModelOmitsTargetPath(GetOr(body.fields, "target_path", Null).s);
  }
}
