/** The JSON responses `/extract` returns: `{success, data}` or
    `{success, error}` with an HTTP status code, and the fixed ones among
    them. */
module Responses {
  import opened JsonValue
  import opened Normalization

  /** The body beside `success`: the normalised record, or the `error` value. */
  datatype Payload = Data(record: NormalizedResult) | Error(message: Json)

  datatype Response = Response(success: bool, status: int, payload: Payload)

  /** Every response the handler builds carries `data` exactly when `success`
      is true. */
  predicate WellShaped(r: Response)
  {
    r.success <==> r.payload.Data?
  }

  /** A failure response with a string message. */
  function Failure(status: int, message: string): (r: Response)
    ensures WellShaped(r) && !r.success
  {
    Response(false, status, Error(JStr(message)))
  }

  const ConfigError: Response := Failure(500, "Server configuration error: APIFY_TOKEN not set")
  const MissingUrl: Response := Failure(400, "Missing \"url\" parameter in request body")
  const InvalidUrl: Response := Failure(400, "Invalid URL format")
  const NotInstagram: Response := Failure(400, "URL must be from instagram.com")
  const TimedOut: Response := Failure(504, "Request timed out. Please try again.")
  const UnexpectedFormat: Response := Failure(500, "Unexpected response format from Apify")
  const NoData: Response := Failure(404, "No data found. The post might be private, deleted, or the URL is invalid.")

  /** The text of the AttributeError Python raises for `x.get` on a value
      whose class is `typeName`. */
  function NoGetAttribute(typeName: string): string
  {
    "'" + typeName + "' object has no attribute 'get'"
  }
}
