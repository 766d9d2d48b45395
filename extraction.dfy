/** The `/extract` handler end to end (app.py:47-193): the guards, then one
    outbound call, then the classification of its outcome. The configured
    token is a parameter, and the provider is a function from the token and
    the URL to the outcome of the call, so that "the call is not made" reads
    as "the response does not depend on the provider". */
module Extraction {
  import opened JsonValue
  import opened Text
  import opened Normalization
  import opened Responses
  import opened Validation
  import opened Classification

  /** The response to a POST of `body`, with `token` configured and the
      provider answering as `provider`. */
  function Extract(token: string, body: RequestBody, provider: (string, string) -> ProviderOutcome): (r: Response)
    ensures WellShaped(r)
    ensures token == "" ==> r == ConfigError
    ensures r.success ==> Validate(token, body).Accept?
  {
    match Validate(token, body)
    case Reject(response) => response
    case Accept(url) => Classify(url, provider(token, url))
  }

  /** Without a token every request gets the configuration error, whatever
      its body and whatever the provider would have said. */
  lemma NoTokenIsConfigError(body: RequestBody, provider: (string, string) -> ProviderOutcome)
    ensures Extract("", body, provider) == ConfigError
    ensures Extract("", body, provider).status == 500
  {
  }

  /** A request the guards reject never reaches the provider: its response
      is the same for every provider. */
  lemma RejectedRequestsMakeNoCall(token: string, body: RequestBody,
                                   provider: (string, string) -> ProviderOutcome,
                                   other: (string, string) -> ProviderOutcome)
    requires !(token != "" && HasUrlKey(body) && body.fields["url"].JStr?
               && HasSubstring(body.fields["url"].s, Marker))
    ensures Extract(token, body, provider) == Extract(token, body, other)
    ensures !Extract(token, body, provider).success
  {
  }

  /** A success happens exactly when the guards pass and the provider replies
      with a list whose first record is an object; it then carries 200 and
      that record normalised against the request's URL. */
  lemma SuccessIff(token: string, body: RequestBody, provider: (string, string) -> ProviderOutcome)
    ensures var r := Extract(token, body, provider);
      r.success <==> (Validate(token, body).Accept?
                      && var o := provider(token, Validate(token, body).url);
                      o.Reply? && o.body.Parsed? && IsUsableList(o.body.value))
    ensures var r := Extract(token, body, provider);
      r.success ==> r.status == 200 && HasSubstring(body.fields["url"].s, Marker)
  {
  }

  /** The status of every response is one the handler writes itself, or the
      provider's own status forwarded with a provider error object. */
  lemma StatusCodes(token: string, body: RequestBody, provider: (string, string) -> ProviderOutcome)
    ensures var r := Extract(token, body, provider);
      r.status in {200, 400, 404, 500, 503, 504}
      || (Validate(token, body).Accept?
          && var o := provider(token, Validate(token, body).url);
          o.Reply? && o.body.Parsed? && IsErrorObject(o.body.value) && r.status == o.status)
  {
  }

  /** The request `{"url": u}`. */
  function UrlBody(u: string): RequestBody
  {
    Object(map["url" := JStr(u)])
  }

  const ReelUrl: string := "https://www." + Marker + "/reel/abc/"

  /** A provider that always gives the same outcome. */
  function Always(o: ProviderOutcome): (string, string) -> ProviderOutcome
  {
    (token: string, url: string) => o
  }

  /** The provider's `{"error": {"message": "X"}}` with status 429 reaches
      the caller as 429 with the error text "X". */
  lemma ExampleProviderError()
    ensures var reply := JObj(map["error" := JObj(map["message" := JStr("X")])]);
      Extract("t", UrlBody(ReelUrl), Always(Reply(429, Parsed(reply))))
        == Response(false, 429, Error(JStr("X")))
  {
    OccursInConcat("https://www.", Marker, "/reel/abc/");
  }

  /** `[{"caption": "Yum", "ownerUsername": "chef"}]` gives 200 with those two
      fields and every other field defaulted. */
  lemma ExampleSuccess()
    ensures var post := map["caption" := JStr("Yum"), "ownerUsername" := JStr("chef")];
      Extract("t", UrlBody(ReelUrl), Always(Reply(200, Parsed(JArr([JObj(post)])))))
        == Response(true, 200, Data(NormalizedResult(JStr("Yum"), JStr(ReelUrl), JStr("chef"), JStr(""),
             JInt(0), JInt(0), JInt(0), JArr([]), JArr([]), JNull)))
  {
    OccursInConcat("https://www.", Marker, "/reel/abc/");
  }

  /** An empty list from the provider is the fixed 404. */
  lemma ExampleNoData()
    ensures Extract("t", UrlBody(ReelUrl), Always(Reply(200, Parsed(JArr([]))))) == NoData
  {
    OccursInConcat("https://www.", Marker, "/reel/abc/");
  }

  /** A URL of another site is refused before any call. */
  lemma ExampleNotInstagram(provider: (string, string) -> ProviderOutcome)
    ensures Extract("t", UrlBody("https://t.co/"), provider) == NotInstagram
  {
    var u := "https://t.co/";
    assert !OccursAt(u, Marker, 0) by { assert u[0..|Marker|][0] != Marker[0]; }
  }
}
