# Instagram recipe extractor: the `/extract` handler, in Dafny

The service takes the URL of an Instagram post in a POST to `/extract`,
passes it to the Apify reel scraper, and answers with either a fixed-shape
record (`caption`, `url`, `username`, `timestamp`, `likes`, `comments`,
`views`, `hashtags`, `mentions`, `location`) or `{success: false, error}`.
The decisions the handler takes are modelled as pure functions, and the
lemmas beside them state their properties:

- `json_value.dfy` (`JsonValue`): decoded JSON values. It also models the
  Python semantics the handler relies on: truthiness, class names and
  `dict.get`.
- `text.dfy` (`Text`): Python's substring test, `'instagram.com' in url`.
  `Contains` is a scan. `ContainsIff` proves that it finds the marker exactly
  when the marker occurs at some index.
- `validation.dfy` (`Validation`): the ordered guards (token, body and `url`
  key, `url` a non-empty string, `instagram.com` in it).
- `classification.dfy` (`Classification`): the outcome of the outbound call.
  It is a timeout, another request exception, an exception of any other
  kind, a reply whose body does not parse, or a reply whose body parses to a
  JSON value. The module maps each
  outcome to a response.
- `normalization.dfy` (`Normalization`): the `.get(key, default)` reshaping
  of the first provider record.
- `responses.dfy` (`Responses`): responses and the fixed failure messages.
- `extraction.dfy` (`Extraction`): the handler end to end. The configured
  token is a parameter. The provider is a function from token and URL to a
  call outcome, so "no call is made" reads as "the response is the same for
  every provider".

Behaviour of app.py worth noting:

- The provider's HTTP status is never checked. A reply whose body is a
  usable list gives 200 and `success: true`, whatever status came with it.
  Only a body that is an object with an `error` key whose value is itself an
  object has its status forwarded (`ProviderStatusForwardedOnlyForErrors`).
- A non-empty list whose first element is not an object does not succeed.
  `post_data.get` raises AttributeError at app.py:152. The generic handler
  turns that into 500 `Unexpected error: '<type>' object has no attribute
  'get'`. An `error` value that is not an object goes the same way
  (app.py:125). So a success needs a non-empty list whose first element is an
  object (`Interpret`, `SuccessIff`).
- A missing `url` key and a `url` of the wrong type get different messages.
  The first gets `Missing "url" parameter in request body`. The second gets
  `Invalid URL format`, the same message as an empty string.
- `error.message` is forwarded as whatever JSON value it is. It need not be
  a string, so the error payload is a `Json`.

## Model

| member | source | states |
|---|---|---|
| `Validation.Validate` | app.py:51-84 | The token is checked first and the body is never consulted without it (500). A body that `get_json()` returns as `None` (JSON `null`), an empty object or one without `url` gives 400 "Missing". A `url` that is not a non-empty string gives 400 "Invalid URL format". A string without `instagram.com` gives 400. A request is accepted iff the token is set, `url` is a string and the marker occurs in it (existential definition). The accepted URL is that string and is at least as long as the marker. |
| `Validation.RejectionStatus` | app.py:51-84 | Every rejection is a failure without data, with status 500 exactly when the token is missing and 400 otherwise. |
| `Validation.TokenCheckedFirst` | app.py:52-57 | With an empty token any two bodies get the same configuration error. |
| `Text.ContainsIff` | app.py:79 | The scan used for `'instagram.com' in url` returns true iff the marker occurs at some index of the URL. |
| `Classification.Classify` | app.py:107-193 | A timeout gives 504. Any other request exception gives 503 with `Network error: ` before its text. Any exception that is not a request exception gives 500 with `Unexpected error: ` before its text. An unparsable body gives 500 with `Invalid response from Apify: ` before its text. The response succeeds iff the reply parsed to a list whose first element is an object. |
| `Classification.Interpret` | app.py:123-193 | An object with `error` forwards the provider's status with `error.message`, or `Unknown error from Apify` when it is absent. If `error` is not an object, the result is 500 `Unexpected error: '<type>' object has no attribute 'get'`. Any other non-list gives 500 "Unexpected response format". `[]` gives 404 "No data found…". A list whose first element is not an object gives the 500 AttributeError message. A list whose first element is an object gives 200 with that record normalised, and this is the only success. Statuses other than a forwarded one are 200, 404 or 500. |
| `Classification.OnlyFirstRecordMatters` | app.py:150-151 | Two lists with the same first element give the same response; later elements are ignored. |
| `Classification.ProviderStatusForwardedOnlyForErrors` | app.py:124-130 | The provider's status affects the response only when the body is an object with an `error` key; when that `error` value is itself an object, the provider's status is the response's status. |
| `Classification.ErrorKeyTakesPrecedence` | app.py:123-138 | An object whose `error` value is an object (with any keys) is reported as a provider error with the provider's status and `error.message`, or `Unknown error from Apify` when that key is absent, whatever the body's other keys; the shape checks come after. |
| `Normalization.Normalize` | app.py:159-168 | Field by field, each present source key is copied unchanged, including `null` and values of any type. Each absent key gets its default: caption `""`, url the request's URL, username `"Unknown"`, timestamp `""`, the three counts 0, hashtags and mentions `[]`, location null. |
| `Normalization.NormalizeDenormalize` | app.py:159-168 | Normalize inverts the map from a result back to its ten source keys, so every result shape is reachable and a complete record never uses a default. |
| `Normalization.NormalizeIdempotent` | app.py:159-168 | Normalizing a normalized record again (under any request URL) gives the same result. |
| `Normalization.NormalizeOnlyReadsSourceKeys` | app.py:159-168 | Two records that agree on the ten source keys give the same output. The same record always gives the same output, and other keys have no effect. |
| `Normalization.NormalizeDefaults` | app.py:159-168 | A record with none of the ten keys gives the all-default result with the request's URL. |
| `Extraction.Extract` | app.py:47-193 | Every response carries `data` exactly when `success` is true. An empty token gives the configuration error. A success implies the guards accepted the request. |
| `Extraction.NoTokenIsConfigError` | app.py:52-57 | Without a token, every body and every provider give the 500 configuration error. |
| `Extraction.RejectedRequestsMakeNoCall` | app.py:59-108 | A request that fails a guard gets the same failure under every provider, so the call is not made. |
| `Extraction.SuccessIff` | app.py:47-193 | `success` is true iff the guards pass and the provider's reply parses to a list whose first element is an object. A success has status 200 and a URL containing `instagram.com`. |
| `Extraction.StatusCodes` | app.py:47-193 | Every status is 200, 400, 404, 500, 503 or 504. The one exception is the provider's own status, forwarded with an error object. |
| `Extraction.ExampleProviderError` | app.py:124-130 | `{"error": {"message": "X"}}` with status 429 reaches the caller as 429 with error `"X"`. |
| `Extraction.ExampleSuccess` | app.py:150-170 | `[{"caption": "Yum", "ownerUsername": "chef"}]` gives 200 with those two fields, the request URL, counts 0, empty lists and a null location. |
| `Extraction.ExampleNoData` | app.py:142-148 | `[]` gives the fixed 404. |
| `Extraction.ExampleNotInstagram` | app.py:79-84 | A URL without `instagram.com` gets the 400 refusal under every provider. |

## Left out

- The page routes and static file serving (app.py:13-36) return files from disk and hold no logic.
- `/health` (app.py:38-45) returns a constant payload plus `bool(APIFY_TOKEN)`.
- The outbound request itself (app.py:93-108) is left out: the Apify URL with the token in its query, the payload (`username: [url]`, `resultsLimit: 1`, `includeSharesCount: false`), the headers and the 60-second timeout. The model sees it only as the `provider` parameter and its `ProviderOutcome`.
- JSON decoding by `request.get_json()` and `response.json()` is library behaviour. Its results enter as `RequestBody` and `ParseResult`.
- Missing, empty, malformed or non-JSON request bodies are not modelled. Since Flask 2.1, `get_json()` refuses them itself with Werkzeug's own 415 or 400 error before the body guards at app.py:62-84 run. The token guard at app.py:52-57 runs first, so without a token such a request still gets the 500 configuration error. `Absent` stands only for a body that decodes to JSON `null` (and for what older Flask returned as `None`).
- Request bodies that decode to a list, string, number or boolean are not modelled. Falsy ones (`[]`, `""`, `0`, `0.0`, `false`) get the 400 `Missing "url" parameter` response at app.py:62. So do a list without the element `"url"` and a string without the substring `url`. `true` and non-zero numbers raise TypeError at `'url' in data` into Flask's own 500. A list containing `"url"` or a string containing `url` raises TypeError at `data['url']` (app.py:69) into Flask's own 500.
- The text of the timeout, network, parse and other call-path exceptions is an opaque string parameter; which exceptions outside `RequestException` the call path can raise is not modelled, only that one arriving gives 500 `Unexpected error: <text>` (`OtherError`). The AttributeError text is written out as CPython formats it.
- Logging to stderr and traceback printing have no effect on responses.
- Non-finite floats are outside the `Json` domain. Python's `json` accepts `NaN`, `Infinity` and `-Infinity` in a provider reply, and a `real` cannot hold them. So a reply such as `[{"likesCount": NaN}]`, which succeeds in the service, has no counterpart in the model.
- Flask's serialisation of the response is not modelled. This includes `jsonify` of non-finite floats and of status codes outside the HTTP range.
- CORS setup, reading `APIFY_TOKEN` and `PORT` from the environment, and starting the server (app.py:8, 11, 195-197) are process configuration.
