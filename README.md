# cul-folio-edge: request orchestration and error normalisation

A Dafny model of `CUL::FOLIO::Edge` (`lib/cul/folio/edge.rb`), the Ruby client that
the Cornell library portal uses to talk to a FOLIO Okapi gateway. The model covers
the decision layer around each HTTP call:

- the token precondition (`check_token`);
- login under the rotating-token or the legacy scheme, with the access token
  read from the `Set-Cookie` entries (`authenticate`, `authenticate_request`);
- the username lookup and its exactly-one-match rule (`patron_record`);
- the operations that depend on it (`patron_account`, `renew_item`);
- the two-step request-policy lookup and its translation table (`request_options`);
- the request body with its optional comments (`request_item`);
- read-modify-write cancellation (`cancel_request`);
- the single-call lookups (`instance_record`, `service_point`).

The HTTP transport is a parameter `gw: Request -> Outcome` (module `Gateway`). A
`Request` names the endpoint and the values placed in its URL or body. An
`Outcome` is one of three things:

- `Ok(code, body, headers)`: a normal response, with the body already decoded;
- `HttpErr(code, raw)`: a `RestClient::ExceptionWithResponse`;
- `NetErr(hasResponse, code, class, message)`: a network failure outside that
  class, that is a `SocketError`.

Every operation is a function, total except for the cookie precondition of the
login listed under "Left out". It returns a `Run`: the reply, plus the
requests it issued, in order. The reply is either `Returned(Result(payload, code,
error))` or `Raised(exception)`. This makes ordering facts plain. Step 2 "never
issued" means `|r.sent| == 1`. A request "made with the resolved id" means
`r.sent[1] == GetAccount(Get(user, "id"))`. Ruby's `nil` is `JNull` in payloads
and `None` elsewhere.

Modules: `Wrappers` (Option), `JsonValue` (decoded JSON), `Gateway` (requests,
outcomes, results, the base normalise pattern), `Token` (`check_token`), `Auth`,
`Patron`, `Circulation`, `Catalog`, and `Scenarios` (the RSpec examples as lemmas).

The model follows the code in these places, where a reader might expect otherwise:

- An unrecognised request type is not dropped. It maps to nil and stays in the list.
- When the second policy lookup fails, the methods are not forced to be empty.
  They are computed from the first lookup's body (normally it has no
  `requestTypes`, so the list is empty).
- `renew_item` does not short-circuit on a failed lookup. It raises
  `NoMethodError` before any renewal is posted.
- Cancellation does not replay the whole fetched record. It copies a fixed list
  of fields and drops every other fetched field.
- A fetched request whose code is above 200 yields that code with no error.

## Model

| member | source | states |
|---|---|---|
| `Gateway.Index` | lib/cul/folio/edge.rb:123 | `value['id']` is a hash lookup on an object (nil for a missing key) and raises NoMethodError on nil |
| `Gateway.Normalize` | lib/cul/folio/edge.rb:304-311 | the base pattern: the decoded body and code on success; nil, the status and the raw body on an HTTP error; a network failure propagates; the error is absent exactly on success |
| `Gateway.StatusOnly` | lib/cul/folio/edge.rb:368-375 | payload-free calls: the code always comes from the outcome; no error on success; the raw body on an HTTP error; a network failure propagates |
| `Token.LStripSpec` | lib/cul/folio/edge.rb:580 | `lstrip` keeps a suffix, removes only whitespace, and stops at the first non-space |
| `Token.RStripSpec` | lib/cul/folio/edge.rb:580 | `rstrip` keeps a prefix, removes only whitespace, and stops at the last non-space |
| `Token.StripEmptyIffBlank` | lib/cul/folio/edge.rb:580 | `strip` yields the empty string exactly when every character is Ruby whitespace or NUL |
| `Token.TokenMissingIff` | lib/cul/folio/edge.rb:579-583 | `check_token` refuses a token exactly when it is nil or made only of whitespace |
| `Token.PaddedTokenMissingIff` | lib/cul/folio/edge.rb:580 | whitespace around a token never changes whether it is accepted |
| `Auth.FirstIndexOf` | lib/cul/folio/edge.rb:558 | the lazy `(.*?);` stops at the first `;` after the prefix: the index found holds `;` and no earlier one does |
| `Auth.ExtractToken` | lib/cul/folio/edge.rb:558 | the captured token is the text that, framed by `folioAccessToken=` and `;`, starts the cookie; it holds no `;` and no line feed |
| `Auth.ExtractTokenRoundTrip` | lib/cul/folio/edge.rb:558 | a cookie built as `folioAccessToken=<t>;<attributes>` matches, and reading it back gives `t` |
| `Auth.FirstTokenCookie` | lib/cul/folio/edge.rb:556-557 | the scan picks the first `Set-Cookie` entry that starts with `folioAccessToken=`; no entry matches when it finds none |
| `Auth.ScanSetCookie` | lib/cul/folio/edge.rb:554-562 | the loop with `break` returns the first token cookie's token, plus the body's `accessTokenExpiration` when a token was found; nil and nil otherwise |
| `Auth.AuthenticateRequest` | lib/cul/folio/edge.rb:546-576 | `:new` reads the token from the cookies and any other scheme from `x_okapi_token`; success never carries an error; an HTTP error gives no token, its code and raw body; a network error has a code only when a response exists, plus a `Network error: <class> - <message>` text; a missing `Set-Cookie` under `:new` raises |
| `Auth.Authenticate` | lib/cul/folio/edge.rb:29-46 | exactly one login POST with the given credentials; it goes to `/authn/login-with-expiry` exactly when the scheme is `:new`, otherwise to `/authn/login` read as `:old` |
| `Auth.OtherSchemesActAsOld` | lib/cul/folio/edge.rb:41-45 | any scheme symbol other than `:new` and `:old` behaves exactly like `:old` |
| `Auth.RotatingSchemeReadsFirstTokenCookie` | lib/cul/folio/edge.rb:553-566 | with non-token cookies first, `folioAccessToken=<t>; ...` yields token `t`, the body's expiry, the response code and no error, whatever cookies follow |
| `Patron.PatronRecord` | lib/cul/folio/edge.rb:64-96 | raises AuthenticationError exactly for a missing token and then sends nothing; otherwise sends only the username lookup; returns a user, without error, exactly when one record matched, with the response code; zero and several matches give the same code 500 and `Could'nt find user record`; an HTTP error gives its code and raw body; an error never comes with a user |
| `Patron.PatronAccount` | lib/cul/folio/edge.rb:115-156 | a given FOLIO id is used with no lookup; otherwise the lookup comes first; the account is requested after a lookup only with the `id` of the one user found with a code below 300; a lookup with code 300 or more stops with code 500 and `Couldn't identify user` and no account request |
| `Patron.RenewItem` | lib/cul/folio/edge.rb:175-202 | the lookup comes first; the renewal is posted only for the one user it matched, with that user's `id`; a failed or ambiguous lookup raises NoMethodError with nothing posted; an accepted renewal gives the body's `dueDate`, its code and no error; a refused renewal gives its code and its decoded error body |
| `Circulation.TypeMap` | lib/cul/folio/edge.rb:264-268 | a value maps to a method exactly when it is that method's label (`Hold` → `:hold`, `Page` → `:l2l`, `Recall` → `:recall`); anything else maps to nil |
| `Circulation.Translate` | lib/cul/folio/edge.rb:269-270 | nil or false give `[]`; a list is translated element by element with its length kept; a hash gives one nil per entry; other values raise |
| `Circulation.TranslateLabelsRoundTrip` | lib/cul/folio/edge.rb:264-270 | translating the labels of any list of methods gives back that list, in order |
| `Circulation.KnownLabelsGiveAllMethods` | lib/cul/folio/edge.rb:264-270 | the three known labels, in any order, give exactly the set `{:hold, :l2l, :recall}` |
| `Circulation.RequestOptions` | lib/cul/folio/edge.rb:226-273 | refuses a missing token before any request; the rule lookup comes first; the policy request is sent exactly when the rule lookup answered normally, and it names the policy that lookup returned; a failed rule lookup gives `[]` with its code and body; a failed policy lookup gives its code and body, with methods from the first body |
| `Circulation.NoRequestTypesNoMethods` | lib/cul/folio/edge.rb:269-270 | a policy whose `requestTypes` is null gives `[]`, the success code and no error |
| `Circulation.NewRequestBody` | lib/cul/folio/edge.rb:349-363 | `patronComments` is present exactly when the comments are not empty, and then holds them; the nine other keys are always there; `requestLevel` is the one given |
| `Circulation.RequestBodyRoundTrip` | lib/cul/folio/edge.rb:349-363 | the posted body determines every argument, including the comments, where empty means absent |
| `Circulation.CommentsTouchOnlyTheirKey` | lib/cul/folio/edge.rb:361-363 | the comments change no key other than `patronComments` |
| `Circulation.RequestItem` | lib/cul/folio/edge.rb:340-378 | refuses a missing token before any request; otherwise exactly one POST of the new request body, normalised to code and error |
| `Circulation.CancellationRecord` | lib/cul/folio/edge.rb:428-445 | the PUT record has exactly sixteen keys: ten fields copied from the fetched request, status `Closed - Cancelled`, the reason, the requester as canceller, the fixed note, the timestamp, and `requestLevel` defaulting to `Item` when absent |
| `Circulation.CancellationRecordReadsOnlyKnownFields` | lib/cul/folio/edge.rb:428-445 | two fetched requests that agree on the copied fields and `requestLevel` give the same record: no other fetched field is carried over |
| `Circulation.CancelRequest` | lib/cul/folio/edge.rb:396-458 | refuses a missing token before any request; the fetch comes first; the PUT is sent exactly when the fetch answered normally with a code of at most 200, and it carries the cancellation record; a raised fetch gives its code and body; a code above 200 gives that code and no error; otherwise the PUT's outcome is the result |
| `Catalog.InstanceRecord` | lib/cul/folio/edge.rb:291-314 | refuses a missing token before any request; otherwise one GET of the instance, normalised |
| `Catalog.ServicePoint` | lib/cul/folio/edge.rb:476-499 | refuses a missing token before any request; otherwise one GET of the service point, normalised |
| `Scenarios.PatronRecordWithTwoMatches` | spec/patron_record_spec.rb:44-55 | two matching users give no user, code 500 and the fixed message |
| `Scenarios.PatronAccountWithUnknownUser` | spec/patron_account_spec.rb:43-54 | an unknown user gives code 500 and `Couldn't identify user`, and no account request |
| `Scenarios.RenewItemWithUnknownUser` | spec/renew_item_spec.rb:51-59 | an unknown user makes the renewal raise NoMethodError, and no renewal is posted |
| `Scenarios.RequestOptionsWithAllTypes` | spec/request_options_spec.rb:24-36 | Hold, Recall and Page give exactly `:hold`, `:recall` and `:l2l`, with code 200 and no error |
| `Scenarios.RequestOptionsWithFailedRule` | spec/request_options_spec.rb:38-49 | a failed rule lookup gives `[]`, 404 and `Not found`, and no policy request |
| `Scenarios.CancelRequestWithFetchAbove200` | spec/cancel_request_spec.rb:80-89 | a fetch answering 400 gives code 400, no error and no PUT |
| `Scenarios.RequestItemWithBlankComments` | spec/request_item_spec.rb:58-82 | blank comments leave `patronComments` out of the posted body |
| `Scenarios.AuthenticateWithAccessTokenCookie` | spec/authenticate_request_spec.rb:17-35 | the cookie `folioAccessToken=abc123; Path=/; HttpOnly` gives token `abc123`, the body's expiry, code 201 and no error |

## Left out

- HTTP transport, URLs, headers, the gateway URL and the tenant: network I/O. Each call is a `Request` value, and its outcome comes from the `gw` parameter.
- JSON encoding and decoding. Success bodies arrive as decoded objects. Error bodies stay raw strings. Numbers are integers only.
- Malformed JSON (`JSON::ParserError`) and bodies that are not JSON objects are not modelled.
- `renew_item`'s decoded error body is kept as `ParsedBody(raw)`, the raw text marked as decoded, because decoding is not modelled.
- Ruby's duck typing on decoded values of an unexpected JSON kind is collapsed into one `UnexpectedShape` exception. Examples are a `users` field that is a hash or a string, or a user record that is not a hash.
- `Time.now.utc.iso8601` (clock read): `CancelRequest` takes the timestamp as the parameter `now`.
- The refresh token of the rotating scheme: the client ignores it.
- Timeouts. `OpenTimeout` and `ReadTimeout` are subclasses of `ExceptionWithResponse` whose response is nil, so every operation's first rescue catches them and crashes with NoMethodError on `err.response.code`. The model has no outcome for them: every `HttpErr` carries a response.
- `NetErr` stands for `SocketError`. Only `authenticate_request` rescues it by name; everywhere else it propagates as `Uncaught`. A `SocketError` has no response, so the `hasResponse` case of that rescue clause (`edge.rb:571`) is modelled as written but cannot occur.
- Auth.AuthenticateRequest: requires that the first `folioAccessToken=` cookie has a `;` with no line feed before it. A cookie without that shape is not modelled: the unanchored regex may then match a later occurrence in the same cookie or none at all.
- Auth.Authenticate: the same precondition on the login response. Auth.ScanSetCookie carries it too.
- Arguments are strings. A nil id or username, which Ruby would put into the URL as an empty string, is not modelled. A token of another Ruby class, converted with `to_s`, is not modelled either.
- `spec/authenticate_spec.rb`: a recorded live-gateway test driven by environment variables. It has no logic beyond what `authenticate` does.
