/** The part of the handler from the outbound call on (app.py:108-193): the
    call's outcome, and the parsed provider reply, decide the response. */
module Classification {
  import opened JsonValue
  import opened Normalization
  import opened Responses

  /** What `response.json()` did with the reply body. */
  datatype ParseResult = ParseFail(reason: string) | Parsed(value: Json)

  /** How the outbound `requests.post` ended: a timeout, any other request
      exception (with its text), an exception that is not a request exception
      (with its text), or a reply with its HTTP status and body. */
  datatype ProviderOutcome =
    | Timeout
    | NetworkError(reason: string)
    | OtherError(reason: string)
    | Reply(status: int, body: ParseResult)

  /** The reply is a non-empty list whose first record is an object: the one
      shape that gives a success. */
  predicate IsUsableList(j: Json)
  {
    j.JArr? && |j.items| > 0 && j.items[0].JObj?
  }

  /** The reply is an object carrying an `error` key. */
  predicate IsErrorObject(j: Json)
  {
    j.JObj? && "error" in j.fields
  }

  /** The response for a reply with HTTP status `status` whose body parsed to
      `results` (app.py:123-170, with the AttributeErrors that app.py:186-193
      turns into 500). */
  function Interpret(inputUrl: string, status: int, results: Json): (r: Response)
    ensures WellShaped(r)
    // Only a usable list succeeds, with 200 and its first record normalised.
    ensures r.success <==> IsUsableList(results)
    ensures r.success ==> r.status == 200 && r.payload.record == Normalize(inputUrl, results.items[0].fields)
    // A provider error object: its status is forwarded with `error.message`,
    // or the error value is not an object and `.get` fails.
    ensures IsErrorObject(results) && results.fields["error"].JObj? ==>
      r == Response(false, status, Error(Get(results.fields["error"].fields, "message", JStr("Unknown error from Apify"))))
    ensures IsErrorObject(results) && !results.fields["error"].JObj? ==>
      r == Failure(500, "Unexpected error: " + NoGetAttribute(PyTypeName(results.fields["error"])))
    // Anything that is not a list, or an empty one.
    ensures !IsErrorObject(results) && !results.JArr? ==> r == UnexpectedFormat
    ensures results == JArr([]) ==> r == NoData
    // A non-empty list whose first element is not an object fails on `.get`.
    ensures results.JArr? && |results.items| > 0 && !results.items[0].JObj? ==>
      r == Failure(500, "Unexpected error: " + NoGetAttribute(PyTypeName(results.items[0])))
    // The provider's status is echoed only for an error object.
    ensures !IsErrorObject(results) ==> r.status in {200, 404, 500}
  {
    if results.JObj? && "error" in results.fields then
      var err := results.fields["error"];
      if err.JObj? then
        Response(false, status, Error(Get(err.fields, "message", JStr("Unknown error from Apify"))))
      else
        Failure(500, "Unexpected error: " + NoGetAttribute(PyTypeName(err)))
    else if !results.JArr? then
      UnexpectedFormat
    else if !Truthy(results) || |results.items| == 0 then
      NoData
    else
      var post := results.items[0];
      if post.JObj? then
        Response(true, 200, Data(Normalize(inputUrl, post.fields)))
      else
        Failure(500, "Unexpected error: " + NoGetAttribute(PyTypeName(post)))
  }

  /** The response for the outcome of the outbound call (app.py:108-121,
      172-184, and Interpret for a parsed reply). */
  function Classify(inputUrl: string, outcome: ProviderOutcome): (r: Response)
    ensures WellShaped(r)
    ensures outcome.Timeout? ==> r == TimedOut
    ensures outcome.NetworkError? ==> r == Failure(503, "Network error: " + outcome.reason)
    ensures outcome.OtherError? ==> r == Failure(500, "Unexpected error: " + outcome.reason)
    ensures outcome.Reply? && outcome.body.ParseFail? ==>
      r == Failure(500, "Invalid response from Apify: " + outcome.body.reason)
    ensures r.success <==> outcome.Reply? && outcome.body.Parsed? && IsUsableList(outcome.body.value)
  {
    match outcome
    case Timeout => TimedOut
    case NetworkError(reason) => Failure(503, "Network error: " + reason)
    case OtherError(reason) => Failure(500, "Unexpected error: " + reason)
    case Reply(status, ParseFail(reason)) => Failure(500, "Invalid response from Apify: " + reason)
    case Reply(status, Parsed(results)) => Interpret(inputUrl, status, results)
  }

  /** Only the first record of a successful list is read: whatever follows
      it is ignored. */
  lemma OnlyFirstRecordMatters(inputUrl: string, status: int, first: Json, rest: seq<Json>, other: seq<Json>)
    ensures Interpret(inputUrl, status, JArr([first] + rest)) == Interpret(inputUrl, status, JArr([first] + other))
  {
  }

  /** The status the provider sent is irrelevant unless its body is an error
      object; when that object's `error` value is itself an object, the
      provider's status is passed on whatever it is. (Otherwise `.get` fails
      and the answer is 500.) */
  lemma ProviderStatusForwardedOnlyForErrors(inputUrl: string, status: int, other: int, results: Json)
    ensures !IsErrorObject(results) ==> Interpret(inputUrl, status, results) == Interpret(inputUrl, other, results)
    ensures IsErrorObject(results) && results.fields["error"].JObj? ==> Interpret(inputUrl, status, results).status == status
  {
  }

  /** A body with an `error` key is reported as a provider error even when the
      rest of it would be a well-formed answer: the error check comes before
      the shape checks. */
  lemma ErrorKeyTakesPrecedence(inputUrl: string, status: int, fields: map<string, Json>, err: map<string, Json>)
    ensures Interpret(inputUrl, status, JObj(fields["error" := JObj(err)]))
      == Response(false, status, Error(Get(err, "message", JStr("Unknown error from Apify"))))
  {
  }
}
