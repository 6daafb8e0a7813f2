/**
 * `proxy_handler`: the local `/stream/:job_id` endpoint that fetches a job's audio from
 * the Scriberr server with the API key attached. Header maps are keyed by lower-case
 * header name, as `HeaderMap` normalises them, and hold the first value of each name.
 */
module Proxy {
  import opened Wrappers
  import opened Strings
  import Storage

  type Headers = map<string, string>

  datatype UpstreamRequest = UpstreamRequest(url: string, headers: Headers)

  datatype UpstreamResponse = UpstreamResponse(status: int, headers: Headers, body: seq<bv8>)

  /** What sending the request gives: a transport failure, or the upstream response. */
  datatype Upstream = SendFailed | Responded(response: UpstreamResponse)

  datatype Response = Response(status: int, headers: Headers, body: seq<bv8>)

  const ServiceUnavailable := 503
  const BadGateway := 502

  /** The upstream location of a job's audio. */
  function UpstreamUrl(baseUrl: string, jobId: string): (r: string)
    ensures StartsWith(r, TrimTrailingSlashes(baseUrl))
    ensures r[|TrimTrailingSlashes(baseUrl)|..] == "/api/v1/transcription/" + jobId + "/audio"
  {
    TrimTrailingSlashes(baseUrl) + "/api/v1/transcription/" + jobId + "/audio"
  }

  /** Different jobs are fetched from different upstream locations. */
  lemma UpstreamUrlDistinguishesJobs(baseUrl: string, jobId: string, otherId: string)
    requires UpstreamUrl(baseUrl, jobId) == UpstreamUrl(baseUrl, otherId)
    ensures jobId == otherId
  {
    var n := |TrimTrailingSlashes(baseUrl)| + |"/api/v1/transcription/"|;
    var r, q := UpstreamUrl(baseUrl, jobId), UpstreamUrl(baseUrl, otherId);
    assert r[n..|r| - |"/audio"|] == jobId;
    assert q[n..|q| - |"/audio"|] == otherId;
  }

  /** The server is reached the same way however many slashes end the configured URL. */
  lemma UpstreamUrlIgnoresTrailingSlash(baseUrl: string, jobId: string)
    ensures UpstreamUrl(baseUrl + "/", jobId) == UpstreamUrl(baseUrl, jobId)
  {
    TrimTrailingSlashesAbsorbs(baseUrl);
  }

  /** `StatusCode::is_success`; `206 Partial Content` is one of these. */
  predicate IsSuccess(status: int) {
    200 <= status <= 299
  }

  /** The status returned for an upstream failure status. */
  function FailureStatus(status: int): (r: int)
    ensures status == 401 || status == 403 ==> r == 403
    ensures status == 404 ==> r == 404
    ensures status != 401 && status != 403 && status != 404 ==> r == BadGateway
  {
    if status == 401 || status == 403 then 403 else if status == 404 then 404 else BadGateway
  }

  /** The upstream headers passed on to the player. */
  const ForwardedHeaders: set<string> := {"content-type", "content-length", "content-range", "accept-ranges"}

  /** The request headers sent upstream: the API key, and the player's `Range` if it sent one. */
  function UpstreamHeaders(apiKey: string, incoming: Headers): (r: Headers)
    ensures r.Keys == {"x-api-key"} + (if "range" in incoming then {"range"} else {})
    ensures r["x-api-key"] == apiKey
    ensures "range" in incoming ==> r["range"] == incoming["range"]
  {
    var h := map["x-api-key" := apiKey];
    if "range" in incoming then h["range" := incoming["range"]] else h
  }

  /** `proxy_handler`. `requested` is the upstream request, `None` when none is made;
      an `Err` carries the status code the handler answers with. */
  method ProxyHandler(settings: Storage.Settings, jobId: string, incoming: Headers, send: UpstreamRequest -> Upstream)
    returns (r: Result<Response, int>, requested: Option<UpstreamRequest>)
    ensures settings.scriberr_url == "" ==> r == Err(ServiceUnavailable) && requested == None
    ensures settings.scriberr_url != "" ==>
              requested == Some(UpstreamRequest(UpstreamUrl(settings.scriberr_url, jobId),
                                                UpstreamHeaders(settings.api_key, incoming)))
    ensures requested.Some? && send(requested.value).SendFailed? ==> r == Err(BadGateway)
    ensures requested.Some? && send(requested.value).Responded? ==>
              var up := send(requested.value).response;
              if IsSuccess(up.status) then
                && r.Ok? && r.value.status == up.status && r.value.body == up.body
                && r.value.headers.Keys == (up.headers.Keys * ForwardedHeaders) + {"access-control-allow-origin"}
                && r.value.headers["access-control-allow-origin"] == "*"
                && (forall h :: h in up.headers && h in ForwardedHeaders ==> r.value.headers[h] == up.headers[h])
              else r == Err(FailureStatus(up.status))
    ensures r.Err? ==> r.error in {403, 404, BadGateway, ServiceUnavailable}
  {
    if settings.scriberr_url == "" {
      return Err(ServiceUnavailable), None;
    }
    var url := UpstreamUrl(settings.scriberr_url, jobId);
    var headers := map["x-api-key" := settings.api_key];
    if "range" in incoming {
      headers := headers["range" := incoming["range"]];
    }
    var request := UpstreamRequest(url, headers);
    requested := Some(request);
    var upstream := send(request);
    if upstream.SendFailed? {
      return Err(BadGateway), requested;
    }
    var up := upstream.response;
    if !IsSuccess(up.status) {
      return Err(FailureStatus(up.status)), requested;
    }
    var out: Headers := map[];
    if "content-type" in up.headers {
      out := out["content-type" := up.headers["content-type"]];
    }
    if "content-length" in up.headers {
      out := out["content-length" := up.headers["content-length"]];
    }
    if "content-range" in up.headers {
      out := out["content-range" := up.headers["content-range"]];
    }
    if "accept-ranges" in up.headers {
      out := out["accept-ranges" := up.headers["accept-ranges"]];
    }
    out := out["access-control-allow-origin" := "*"];
    r := Ok(Response(up.status, out, up.body));
  }
}
