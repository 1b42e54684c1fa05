/** The Dynatrace REST client: construction from an environment URL and a
    token, and reading one configuration object by its id. */
module Client {
  import opened Results
  import opened Text
  import opened Url
  import opened PathEscape
  import opened Http

  /** How often a failed request is retried; the wait between attempts is
      not modelled. */
  datatype RetrySettings = RetrySettings(maxRetries: nat)

  datatype DynatraceClient = DynatraceClient(
    environmentUrl: string,
    token: string,
    retrySettings: RetrySettings)

  datatype ConfigError = NoEnvironmentUrl | NoToken | InvalidUrl(url: string)

  /** The error text; each kind carries the words callers look for. */
  function ConfigMessage(e: ConfigError): (m: string)
    ensures e.NoEnvironmentUrl? ==> Contains(m, "no environment url")
    ensures e.NoToken? ==> Contains(m, "no token")
    ensures e.InvalidUrl? ==> Contains(m, "not valid")
  {
    match e
    case NoEnvironmentUrl =>
      ContainsInfix("", "no environment url", "");
      assert "" + "no environment url" + "" == "no environment url";
      "no environment url"
    case NoToken =>
      ContainsInfix("", "no token", "");
      assert "" + "no token" + "" == "no token";
      "no token"
    case InvalidUrl(url) =>
      var pre := "environment url " + url + " was ";
      ContainsInfix(pre, "not valid", "");
      assert pre + "not valid" + "" == "environment url " + url + " was not valid";
      "environment url " + url + " was not valid"
  }

  /** Construction checks, in this order, for an empty URL, an empty token
      and a URL that is not absolute; a valid URL is stored without one
      trailing slash. */
  function NewClient(url: string, token: string, retrySettings: RetrySettings): (r: Result<DynatraceClient, ConfigError>)
    ensures r == Failure(NoEnvironmentUrl) <==> url == ""
    ensures r == Failure(NoToken) <==> url != "" && token == ""
    ensures r == Failure(InvalidUrl(url)) <==> url != "" && token != "" && !IsValidUrl(url)
    ensures r.Success? <==> url != "" && token != "" && IsValidUrl(url)
    ensures r.Success? ==>
      && IsValidUrl(r.value.environmentUrl)
      && (if EndsWith(url, '/') then r.value.environmentUrl + "/" == url else r.value.environmentUrl == url)
      && r.value.token == token
      && r.value.retrySettings == retrySettings
  {
    if url == "" then Failure(NoEnvironmentUrl)
    else if token == "" then Failure(NoToken)
    else if !IsValidUrl(url) then Failure(InvalidUrl(url))
    else
      TrimKeepsValid(url);
      Success(DynatraceClient(TrimTrailingSlash(url), token, retrySettings))
  }

  /** The part of an API description the read path needs: its id and the
      path below the environment URL. */
  datatype Api = Api(id: string, urlPath: string)

  /** The URL a read by id requests: the id becomes one escaped segment. */
  function ReadByIdUrl(c: DynatraceClient, api: Api, id: seq<byte>): string {
    c.environmentUrl + api.urlPath + "/" + Escape(id)
  }

  datatype ReadError =
    | Rejected(apiId: string, status: int, body: seq<byte>)
    | Unreachable

  /** Body octets shown as text. */
  function BodyText(body: seq<byte>): (t: string)
    ensures |t| == |body|
    ensures forall k | 0 <= k < |t| :: t[k] as int == body[k]
  {
    seq(|body|, k requires 0 <= k < |body| => body[k] as char)
  }

  function ReadErrorMessage(e: ReadError): (m: string)
    ensures e.Rejected? ==> Contains(m, "Response was")
  {
    match e
    case Rejected(apiId, _, body) =>
      var pre := "failed to get existing config for api " + apiId + "!\n    ";
      var post := ": " + BodyText(body);
      ContainsInfix(pre, "Response was", post);
      pre + "Response was" + post
    case Unreachable => "GET request failed: no response"
  }

  /** One GET of the escaped URL. `server` stands for the remote
      environment: it answers a request URL. A 2xx answer's body is returned
      unchanged; any other answer is an error that shows the response. */
  function ReadById(c: DynatraceClient, api: Api, id: seq<byte>, server: string -> Reply<seq<byte>>): (r: Result<seq<byte>, ReadError>)
    ensures r.Success? <==> server(ReadByIdUrl(c, api, id)).Succeeded()
    ensures r.Success? ==> r.value == server(ReadByIdUrl(c, api, id)).body
    ensures r.Failure? && server(ReadByIdUrl(c, api, id)).Answer? ==>
      && r.error == Rejected(api.id, server(ReadByIdUrl(c, api, id)).status, server(ReadByIdUrl(c, api, id)).body)
      && Contains(ReadErrorMessage(r.error), "Response was")
  {
    match server(ReadByIdUrl(c, api, id))
    case NoAnswer => Failure(Unreachable)
    case Answer(status, body) =>
      if 200 <= status <= 299 then Success(body) else Failure(Rejected(api.id, status, body))
  }

  /** The requested URL is the API's URL, a slash, and one segment that
      holds no `/` and decodes back to the id. */
  lemma ReadByIdUrlCarriesId(c: DynatraceClient, api: Api, id: seq<byte>)
    ensures var prefix := c.environmentUrl + api.urlPath + "/";
      var u := ReadByIdUrl(c, api, id);
      && |prefix| <= |u| && u[..|prefix|] == prefix
      && '/' !in u[|prefix|..]
      && Unescape(u[|prefix|..]) == Some(id)
  {
    var prefix := c.environmentUrl + api.urlPath + "/";
    var u := ReadByIdUrl(c, api, id);
    assert u[|prefix|..] == Escape(id);
    UnescapeEscape(id);
  }

  /** Different ids are never sent to the same URL. */
  lemma ReadByIdUrlInjective(c: DynatraceClient, api: Api, id1: seq<byte>, id2: seq<byte>)
    ensures ReadByIdUrl(c, api, id1) == ReadByIdUrl(c, api, id2) ==> id1 == id2
  {
    if ReadByIdUrl(c, api, id1) == ReadByIdUrl(c, api, id2) {
      ReadByIdUrlCarriesId(c, api, id1);
      ReadByIdUrlCarriesId(c, api, id2);
    }
  }
}
