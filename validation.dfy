/** The guards at the top of the `/extract` handler (app.py:51-84). They run
    in order and the first one that fails decides the response. */
module Validation {
  import opened JsonValue
  import opened Text
  import opened Responses

  /** The substring a URL must contain to be accepted. */
  const Marker: string := "instagram.com"

  /** What `request.get_json()` returned: `None` (the body was JSON `null`;
      Flask before 2.1 also returns `None` for a missing or non-JSON body)
      or a JSON object. */
  datatype RequestBody = Absent | Object(fields: map<string, Json>)

  /** The outcome of the guards: go on with the URL, or answer at once. */
  datatype Checked = Accept(url: string) | Reject(response: Response)

  /** The body names a URL under key `url`. */
  predicate HasUrlKey(body: RequestBody)
  {
    body.Object? && "url" in body.fields
  }

  /** A value the handler takes as a URL: a string that is not empty. */
  predicate IsUrlString(j: Json)
  {
    j.JStr? && j.s != ""
  }

  /** The guards of app.py:51-84, given the configured token and the body. */
  function Validate(token: string, body: RequestBody): (c: Checked)
    // The token is checked first; the body is not looked at without it.
    ensures token == "" ==> c == Reject(ConfigError)
    // A body that is absent, empty, or lacks `url`.
    ensures token != "" && !HasUrlKey(body) ==> c == Reject(MissingUrl)
    // A `url` that is not a non-empty string.
    ensures token != "" && HasUrlKey(body) && !IsUrlString(body.fields["url"]) ==> c == Reject(InvalidUrl)
    // A non-empty string that does not mention the marker.
    ensures (token != "" && HasUrlKey(body) && IsUrlString(body.fields["url"])
             && !HasSubstring(body.fields["url"].s, Marker)) ==> c == Reject(NotInstagram)
    // Acceptance: exactly the requests that pass every guard, with their URL.
    ensures c.Accept? <==> (token != "" && HasUrlKey(body) && body.fields["url"].JStr?
                            && HasSubstring(body.fields["url"].s, Marker))
    ensures c.Accept? ==> c.url == body.fields["url"].s && |c.url| >= |Marker|
  {
    if token == "" then
      Reject(ConfigError)
    else if body.Absent? || !Truthy(JObj(body.fields)) || "url" !in body.fields then
      Reject(MissingUrl)
    else
      var url := body.fields["url"];
      if !Truthy(url) || !url.JStr? then
        Reject(InvalidUrl)
      else
        ContainsIff(url.s, Marker);
        if !Contains(url.s, Marker) then
          Reject(NotInstagram)
        else
          ContainsLength(url.s, Marker);
          Accept(url.s)
  }

  /** Every rejection is a well-shaped failure with status 400, or 500 for
      the missing token. */
  lemma RejectionStatus(token: string, body: RequestBody)
    requires Validate(token, body).Reject?
    ensures var r := Validate(token, body).response;
      WellShaped(r) && !r.success && (r.status == 500 <==> token == "") && (r.status == 400 <==> token != "")
  {
  }

  /** With no token every body yields the same response. */
  lemma TokenCheckedFirst(body: RequestBody, other: RequestBody)
    ensures Validate("", body) == Validate("", other) == Reject(ConfigError)
  {
  }
}
