/**
 * The generic queue handler that replays a queued payload as an HTTP POST
 * against the local API. The HTTP exchange is a parameter: the response the
 * server gives, or the transport error raised.
 */
module Handlers {
  import opened Wrappers
  import opened Json
  import Strings

  /** The API the handler posts to runs in the same container. */
  const LocalBase: string := "http://localhost:80"

  datatype HttpOutcome = Response(status: int, json: Value) | TransportError(message: string)

  /** The POST the handler makes: its URL and JSON body. */
  datatype Post = Post(url: string, body: Dict)

  /** What a handler call did: the request it made, if any, and what it returned or raised. */
  datatype Handled = Handled(request: Option<Post>, result: Result<Value>)

  /** A response outside 2xx makes `raise_for_status` raise. */
  predicate IsSuccess(status: int) { 200 <= status < 300 }

  /** The `HTTPStatusError` of `raise_for_status`; its exact wording is httpx's and is not modelled. */
  function StatusError(status: int, url: string): string
  {
    "HTTP error status for url '" + url + "'"
  }

  /** A truthy `target_path` whose `str()` the model does not write out (see `Json.Show`). */
  const UnshownTarget: string := "target_path text is not modelled"

  /**
   * `passthrough_handler(payload)`. A payload that is not a dict has no `.get`
   * and raises before any request. The URL is the f-string of the base and
   * the path, so a truthy path that is not a str is formatted with `str()`.
   */
  function Passthrough(payload: Value, http: HttpOutcome): (h: Handled)
    ensures h.request.None? ==> h.result.Err?
    ensures h.request.Some? ==>
      payload.Obj? && Truthy(GetOr(payload.fields, "target_path", Null)) &&
      Show(GetOr(payload.fields, "target_path", Null)).Some?
    ensures (payload.Obj? && Truthy(GetOr(payload.fields, "target_path", Null)) &&
             Show(GetOr(payload.fields, "target_path", Null)).Some?)
      ==> h.request.Some?
    ensures payload.Obj? && !Truthy(GetOr(payload.fields, "target_path", Null)) ==>
      h == Handled(None, Err("Missing target_path in payload"))
    ensures h.request.Some? ==>
      h.request.value.url == LocalBase + Show(GetOr(payload.fields, "target_path", Null)).value &&
      h.request.value.body == Remove(payload.fields, "target_path")
    ensures h.result.Ok? <==> h.request.Some? && http.Response? && IsSuccess(http.status)
    ensures h.result.Ok? ==> h.result.value == http.json
  {
    if !payload.Obj? then Handled(None, Err("'" + TypeLabel(payload) + "' object has no attribute 'get'"))
    else
      var target := GetOr(payload.fields, "target_path", Null);
      if !Truthy(target) then Handled(None, Err("Missing target_path in payload"))
      else if Show(target).None? then Handled(None, Err(UnshownTarget))
      else
        var url := LocalBase + Show(target).value;
        var post := Post(url, Remove(payload.fields, "target_path"));
        match http
        case TransportError(m) => Handled(Some(post), Err(m))
        case Response(status, json) =>
          if IsSuccess(status) then Handled(Some(post), Ok(json))
          else Handled(Some(post), Err(StatusError(status, url)))
  }

  /** The forwarded body is the payload with exactly the key `target_path` removed. */
  lemma ForwardedBodyDropsOnlyTargetPath(payload: Value, http: HttpOutcome)
    requires Passthrough(payload, http).request.Some?
    ensures var body := Passthrough(payload, http).request.value.body;
      !HasKey(body, "target_path") &&
      (forall k :: k != "target_path" ==> Get(body, k) == Get(payload.fields, k)) &&
      (forall p :: p in body <==> p in payload.fields && p.0 != "target_path")
  {
  }

  /** An int path is formatted into the URL: `{"target_path": 5}` is posted to `http://localhost:805`. */
  lemma IntTargetPath(http: HttpOutcome)
    ensures Passthrough(Obj([("target_path", Int(5))]), http).request == Some(Post("http://localhost:805", []))
  {
    var payload := Obj([("target_path", Int(5))]);
    assert GetOr(payload.fields, "target_path", Null) == Int(5);
    assert Strings.NatToString(5) == "5";
    assert Show(Int(5)) == Some("5");
    assert Remove(payload.fields, "target_path") == Remove([], "target_path") == [];
    assert Passthrough(payload, http).request == Some(Post(LocalBase + "5", []));
    assert LocalBase + "5" == "http://localhost:805";
  }
}
