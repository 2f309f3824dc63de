# Verifalia Ruby SDK: a Dafny model of its client core

This project models the core of the Verifalia Ruby SDK, a client for the
Verifalia email-verification REST API, and proves properties of that model.
It covers these parts:

- **The resilient invoker** (`Verifalia::Rest::Client`). The client shuffles
  its base URLs once and keeps a rotation cursor across calls. Each `invoke`
  tries at most one endpoint per configured URL, in rotation. It moves on
  after a transport error or a status in Ruby's range `500...599`. When every
  endpoint fails, it raises one error that lists every failure.
- **The job protocol controller** (`Verifalia::EmailValidations::Client`).
  `submit` turns its input into a request and builds the JSON payload. It
  posts the payload and then returns the job, or hands over to `get`. `get`
  polls until a terminal status. Between polls it fires the progress callback
  and waits. `export` and `delete` dispatch on the status they receive.
- **The wait policy** (`WaitOptions`). `default` and `no_wait` are memoised
  class-level instances. The delay before the next poll is read from the
  job's `(dd.)hh:mm:ss` estimate by an unanchored regular expression. Without
  an estimate, the delay is clamped into [0.5, 30] seconds.
- **Client construction** (`Verifalia::Client#initialize`). This covers the
  precedence among a custom authenticator, a username and a client
  certificate, the default base URLs, and the user-agent string.
- **Username/password authentication** (`UsernamePasswordAuthenticator`).
  This covers the username check, the password default, and the HTTP Basic
  `Authorization` header of section 2 of RFC 7617. The header uses UTF-8
  (section 3 of RFC 3629) and Base64 (section 4 of RFC 4648).
- **The legacy REST classes** `Verifalia::REST::AccountBalance` and
  `Verifalia::REST::EmailValidations`. AccountBalance has its own failover
  policy: only a status of exactly 500 moves on. Both classes map statuses to
  error symbols. The legacy EmailValidations class caches query results and
  tracks the job's unique id.

The network is a `Network.Transport` object. It holds an oracle that answers
the k-th request ever sent, and a log of every request sent. So every claim
about which requests were made, and in what order, is stated against that
log. Randomness (`Array#shuffle`) is modelled by its draws, `pick: nat -> nat`.
The JSON parsing of job bodies and the floating-point growth term of the
delay formula are parameters (`EmailValidations.Env`). Ruby's `nil` is
`JNull` or `None`, and Ruby's `false` is `JBool(false)`.

Modules and files:

| module | file | source |
|---|---|---|
| Wrappers | wrappers.dfy | Option and Result |
| RubyCore | ruby_core.dfy | Ruby core behaviour the SDK relies on: exceptions, `to_s`, `to_i`, `join`, `strip` |
| Json | json.dfy | parsed JSON documents; `Hash#compact`; `[]` on a parsed value |
| Arith | arith.dfy | modular arithmetic for the rotation |
| Network | network.dfy | the network oracle and the request log |
| Jobs | jobs.dfy | the plain data classes (request, entry, callback, job, overview, progress) |
| RestApi | rest_client.dfy | lib/verifalia/rest/client.rb |
| Waiting | wait_options.dfy | lib/verifalia/email_validation/wait_options.rb |
| EmailValidations | email_validations_client.dfy | lib/verifalia/email_validation/client.rb |
| Security | security.dfy | lib/verifalia/security/username_password_authenticator.rb |
| VerifaliaClient | verifalia_client.dfy | lib/verifalia/client.rb |
| LegacyRest | legacy_rest.dfy | what lib/rest/account_balance.rb and lib/rest/email_validations.rb share |
| LegacyAccountBalance | legacy_account_balance.dfy | lib/rest/account_balance.rb |
| LegacyEmailValidations | legacy_email_validations.dfy | lib/rest/email_validations.rb |

Where the documented behaviour of the SDK and its code disagree, the model
follows the code:

- `submit` accepts an empty Enumerable. It posts a job with no entries; it
  does not refuse an empty input.
- Only statuses 500 to 598 count as server errors, because the code uses
  Ruby's exclusive range `500...599`.
- `get` called with `wait_options: nil` uses the defaulted options for the
  request, but reads `progress` from the nil argument on the first 202.
  That raises NoMethodError, although the method is documented to wait by
  default (see "## Findings").
- A Hash `completion_callback`, the form the documentation describes, raises
  NameError (see "## Findings").
- The rotation cursor is a plain field, not an atomic counter.
- `compute_error` in the legacy EmailValidations class reads
  `e.response.code`. So an exception without a response raises
  NoMethodError, where the legacy tests expect an error symbol.
- The legacy tests also expect a nested `progress` hash and expect
  incomplete cached results to be fetched again. The code does neither.

## Model

| member | source | states |
|---|---|---|
| RestApi.Shuffle | lib/verifalia/rest/client.rb:47 | the shuffled base URLs are a permutation of the configured ones |
| RestApi.RestClient.constructor | lib/verifalia/rest/client.rb:44-50 | keeps the user agent, holds a permutation of the base URLs and starts the cursor at 0 |
| RestApi.RestClient.Invoke | lib/verifalia/rest/client.rb:52-108 | the result, the requests logged and the cursor's advance are exactly those of `CallOutcome` for the call made from the current cursor |
| RestApi.FirstSuccessFrom | lib/verifalia/rest/client.rb:59-103 | the first attempt at or after i that succeeds; every attempt before it failed |
| RestApi.InvokeLoopOutcome | lib/verifalia/rest/client.rb:59-107 | the loop returns the first response outside 500...599, after exactly the attempts up to it; otherwise it raises the aggregate error of every failure message, in attempt order |
| RestApi.InvokeOutcome | lib/verifalia/rest/client.rb:52-108 | one call either returns the first successful attempt's response or raises "All the base URIs are unreachable" with every message |
| RestApi.InvokeAttemptsBounded | lib/verifalia/rest/client.rb:59 | a call makes at most one attempt per configured URL, and at least one when there are any |
| RestApi.InvokeSendsInRotation | lib/verifalia/rest/client.rb:60-65 | attempt k goes to base URL (cursor + k) mod n, joined to the resource by "/", with the call's verb and body |
| RestApi.FirstAttemptAnswerReturned | lib/verifalia/rest/client.rb:92-98 | a first answer outside 500...599 is returned after a single request |
| RestApi.LastEndpointRescues | lib/verifalia/rest/client.rb:59-103 | when the first n-1 attempts fail and the n-th succeeds, its response is returned after n requests |
| RestApi.NoEndpointsRaise | lib/verifalia/rest/client.rb:59-107 | with no base URLs, nothing is sent and the aggregate error has an empty list |
| RestApi.EndpointsTriedAreDistinct | lib/verifalia/rest/client.rb:59-65 | with distinct base URLs, no endpoint is tried twice in one call |
| RestApi.FailedCallSentAll | lib/verifalia/rest/client.rb:107 | a call that raises has sent exactly one request per configured URL |
| RestApi.FailedCallTriedEveryEndpoint | lib/verifalia/rest/client.rb:107 | a call that raises has tried every configured URL |
| Waiting.WaitOptions.constructor | lib/verifalia/email_validation/wait_options.rb:40-44 | stores both wait times and the progress callback (nil by default) |
| Waiting.WaitOptionsClass.Default | lib/verifalia/email_validation/wait_options.rb:46-49 | returns the memoised instance, creating it with 30000 ms waits only the first time; it is never the no-wait instance |
| Waiting.WaitOptionsClass.NoWait | lib/verifalia/email_validation/wait_options.rb:51-54 | returns the memoised instance, creating it with 0 ms waits only the first time; it is never the default instance |
| Waiting.MemoisedTwice | lib/verifalia/email_validation/wait_options.rb:46-54 | two calls of each return the same object, and the two singletons differ |
| Waiting.Clamp | lib/verifalia/email_validation/wait_options.rb:75 | `max(0.5, min(30, x))` lies in [0.5, 30], is x inside that range and a bound outside it |
| Waiting.ClampMonotonic | lib/verifalia/email_validation/wait_options.rb:75 | the clamp preserves order |
| Waiting.WaitOptions.WaitForNextPoll | lib/verifalia/email_validation/wait_options.rb:56-79 | without an estimate, the delay lies in [0.5, 30]; with one, it is the estimate's seconds, or NoMethodError when the pattern does not match; a delay is never negative |
| Waiting.EtaSeconds | lib/verifalia/email_validation/wait_options.rb:63-73 | a match gives a non-negative number of seconds; no match gives NoMethodError |
| Waiting.SearchLeftmost | lib/verifalia/email_validation/wait_options.rb:63 | the unanchored match is the one at the leftmost position that has a match |
| Waiting.SearchSome | lib/verifalia/email_validation/wait_options.rb:63 | a found match is the match at some position of the text |
| Waiting.SearchNone | lib/verifalia/email_validation/wait_options.rb:63 | no position has a match when the search finds none |
| Waiting.EtaClockRoundTrip | lib/verifalia/email_validation/wait_options.rb:63-73 | text laid out as hh:mm:ss gives hours·3600 + minutes·60 + seconds, with zero days |
| Waiting.EtaDaysRoundTrip | lib/verifalia/email_validation/wait_options.rb:63-73 | text laid out as dd.hh:mm:ss gives days·86400 + hours·3600 + minutes·60 + seconds |
| Waiting.EtaOfClockText | lib/verifalia/email_validation/wait_options.rb:63-73 | the text hh + ":" + mm + ":" + ss reads back as its seconds |
| Waiting.EtaOfDaysText | lib/verifalia/email_validation/wait_options.rb:63-73 | the text dd + "." + hh + ":" + mm + ":" + ss reads back as its seconds |
| Waiting.EtaWithoutColonFails | lib/verifalia/email_validation/wait_options.rb:63-65 | an estimate with no colon leaves `eta_match` nil, so indexing it raises NoMethodError |
| Waiting.EtaIgnoresLeadingText | lib/verifalia/email_validation/wait_options.rb:63 | text without digits or dots in front of the estimate does not change the result |
| EmailValidations.MapItem | lib/verifalia/email_validation/client.rb:80-95 | a String becomes an entry; a RequestEntry is kept; a Hash needs `:input_data`; anything else raises "Cannot map input data." |
| EmailValidations.MapItems | lib/verifalia/email_validation/client.rb:79-96 | the items are mapped in order, or the first failing item's error is raised |
| EmailValidations.ToRequest | lib/verifalia/email_validation/client.rb:73-105 | the dispatch on the class of `data`, with each branch's request or ArgumentError |
| EmailValidations.EmptyEnumerableAccepted | lib/verifalia/email_validation/client.rb:78-99 | an empty Enumerable is accepted as a request with no entries |
| EmailValidations.ConvertCallback | lib/verifalia/email_validation/client.rb:109-113 | as written, a Hash callback raises NameError; nil and a callback object pass through unchanged |
| EmailValidations.ConvertCallbackIntended | lib/verifalia/email_validation/client.rb:109-113 | the intended conversion never fails: a Hash becomes the callback built from its url, version and skip_server_certificate_validation values; nil and a callback object pass through |
| EmailValidations.ConvertCallbackDiffers | lib/verifalia/email_validation/client.rb:109-113 | the written and intended conversions agree exactly on the arguments that are not a Hash; on a Hash the written one raises NameError |
| EmailValidations.HashCallbackRaises | lib/verifalia/email_validation/client.rb:73-113 | as written, a Hash callback makes `submit` fail with NameError whenever its data converts |
| EmailValidations.HashCallbackReachesPayload | lib/verifalia/email_validation/client.rb:109-140 | with the intended conversion, the payload's `callback` member is an object whose url, version and skipServerCertificateValidation read back as the Hash's three values |
| EmailValidations.Payload | lib/verifalia/email_validation/client.rb:119-140 | the payload is a JSON object; a request built around a lone RequestEntry fails with NoMethodError |
| EmailValidations.PayloadEntriesRoundTrip | lib/verifalia/email_validation/client.rb:120-125 | the payload starts with the entries, which read back as the request's entries in input order |
| EmailValidations.PayloadKeepsNonNilOptions | lib/verifalia/email_validation/client.rb:126-140 | an option or callback member appears in the payload exactly when it is not nil |
| EmailValidations.Prepare | lib/verifalia/email_validation/client.rb:73-113 | conversion succeeds exactly when both the data and the callback convert; the data's error is raised first |
| EmailValidations.ExportDispatch | lib/verifalia/email_validation/client.rb:219-222 | 404 and 410 give nil and 200 gives the body; any other status raises the unexpected-response error; an invoke error propagates |
| EmailValidations.DeleteDispatch | lib/verifalia/email_validation/client.rb:231-233 | succeeds exactly on 200 or 410; any other status raises |
| EmailValidations.GetLoopFirstAnswer | lib/verifalia/email_validation/client.rb:175-186 | 404/410 give nil; a status other than 200/202 raises; a body that does not parse raises; 200, or 202 with the no-wait options, gives the job, each after one call |
| EmailValidations.GetLoopPollsAgain | lib/verifalia/email_validation/client.rb:186-195 | a 202 fires the progress callback with the overview, waits the delay (in [0.5, 30] without an estimate) and polls again |
| EmailValidations.NilOptionsCrashWhereDefaultPolls | lib/verifalia/email_validation/client.rb:171-194 | on a first answer of 202, `get` with nil options raises NoMethodError after one request, where the defaulted options fire nothing, wait and poll again |
| EmailValidations.OnePassWhenNoWaitOrNil | lib/verifalia/email_validation/client.rb:186-194 | with the no-wait options, or a nil argument, the loop makes one call and fires nothing; a nil argument on a 202 raises NoMethodError |
| EmailValidations.GetLoopPasses | lib/verifalia/email_validation/client.rb:174-195 | at most one delay per poll, all non-negative; the poll bound is reached exactly when every poll waited; at most one callback per wait, plus one |
| EmailValidations.GetLoopSilentWithoutProgress | lib/verifalia/email_validation/client.rb:190 | without a progress callback, nothing is fired |
| EmailValidations.GetLoopSendsInRotation | lib/verifalia/email_validation/client.rb:175-176 | every request of the loop is the poll GET, sent to the endpoints in rotation from the cursor at the start |
| EmailValidations.GetLoopAdvancesView | lib/verifalia/email_validation/client.rb:174-195 | the cursor advances by the number of requests the loop sent |
| EmailValidations.SubmitFirstAnswer | lib/verifalia/email_validation/client.rb:153-161 | a status other than 200/202 raises; 200, or the no-wait options, gives the job; any other 202 continues with `get` on the job's id and the same options |
| EmailValidations.SubmitRunSends | lib/verifalia/email_validation/client.rb:142-158 | the POST's requests come first and go in rotation; after a 202, the poll GETs continue the rotation |
| EmailValidations.EmailValidationsClient.Submit | lib/verifalia/email_validation/client.rb:63-162 | conversion errors send nothing; otherwise the options are defaulted, the payload is built, and the run is `SubmitRun` with the submission wait and the no-wait test of those options |
| EmailValidations.EmailValidationsClient.Get | lib/verifalia/email_validation/client.rb:171-196 | the outcome, callbacks, delays and requests are those of `GetLoop` with the defaulted poll wait |
| EmailValidations.EmailValidationsClient.Export | lib/verifalia/email_validation/client.rb:209-223 | one invoke of the entries resource, then `ExportDispatch` |
| EmailValidations.EmailValidationsClient.Delete | lib/verifalia/email_validation/client.rb:227-234 | one invoke of DELETE, then `DeleteDispatch` |
| Security.Base64RoundTrip | lib/verifalia/security/username_password_authenticator.rb:46 | Base64 decoding gives back exactly the bytes that were encoded |
| Security.Base64Encode | lib/verifalia/security/username_password_authenticator.rb:46 | the encoding has 4·⌈n/3⌉ characters |
| Security.Utf8RoundTrip | lib/verifalia/security/username_password_authenticator.rb:46 | UTF-8 decoding gives back exactly the characters that were encoded |
| Security.CharRoundTrip | lib/verifalia/security/username_password_authenticator.rb:46 | each character's bytes start with a lead byte for their length, and the continuation bytes rebuild the code point |
| Security.SplitAfterUserId | lib/verifalia/security/username_password_authenticator.rb:46 | a user-id without a colon is split off exactly at the colon written after it |
| Security.BasicHeaderReadsBack | lib/verifalia/security/username_password_authenticator.rb:45-48 | the header decodes to user-id ":" password; it reads back as the same pair whenever the user-id has no colon |
| Security.NewUsernamePasswordAuthenticator | lib/verifalia/security/username_password_authenticator.rb:36-43 | ArgumentError exactly when the username is nil or all whitespace; the username is kept unstripped; a nil password becomes "" |
| Security.UsernamePasswordAuthenticator.Authenticate | lib/verifalia/security/username_password_authenticator.rb:45-48 | sets the Authorization header to the Basic header of the stored pair and leaves every other header unchanged |
| RubyCore.StripEmptyIffBlank | lib/verifalia/security/username_password_authenticator.rb:37 | `strip` leaves nothing exactly when the string is all whitespace |
| VerifaliaClient.NewClient | lib/verifalia/client.rb:60-87 | a custom authenticator wins; then a username, whose error propagates, even when a certificate is given; then a certificate; otherwise ArgumentError. Given base URLs are kept; otherwise the certificate endpoints or the production ones. The REST client gets the user agent, a permutation of the URLs and cursor 0 |
| VerifaliaClient.UserAgentCarriesVersions | lib/verifalia/client.rb:77-79 | the user agent reads "verifalia-rest-client/ruby/", the Ruby version, "-p", the patch level's digits, then "/2.1.0" |
| LegacyAccountBalance.Multiplex | lib/rest/account_balance.rb:36-48 | at most one request per resource |
| LegacyAccountBalance.MultiplexSendsInOrder | lib/rest/account_balance.rb:37-39 | request i goes to resource i of the shuffled order |
| LegacyAccountBalance.MultiplexOutcome | lib/rest/account_balance.rb:36-48 | every answer but the last moved on; a body is returned at once; a failure is either the re-raised non-500 RestClient error of the last answer, or the code-500 exception after every resource moved on |
| LegacyAccountBalance.MultiplexExhausts | lib/rest/account_balance.rb:41-47 | when every answer is a 500 or a non-RestClient error, every resource is tried once and the code-500 exception is raised |
| LegacyAccountBalance.MultiplexFailsWithRestClientError | lib/rest/account_balance.rb:42-47 | `multiplex_request` only ever raises RestClient exceptions |
| LegacyAccountBalance.AccountBalance.constructor | lib/rest/account_balance.rb:10-12 | one account-balance resource per configured host, in order, with @error unset |
| LegacyAccountBalance.AccountBalance.MultiplexRequest | lib/rest/account_balance.rb:36-48 | tries a permutation of the resources, and its result and requests are those of `Multiplex` over that order |
| LegacyAccountBalance.ErrorForCode | lib/rest/account_balance.rb:55-74 | 400, 401, 402, 403, 404, 406, 410 and 429 each map to their own symbol, and everything else, nil included, maps to internal_server_error |
| LegacyAccountBalance.ComputeError | lib/rest/account_balance.rb:50-75 | internal_server_error for a non-RestClient error; otherwise the symbol for `http_code` |
| LegacyAccountBalance.ComputeErrorDiffers | lib/rest/account_balance.rb:50-75 | the written and the corrected `compute_error` agree on RestClient errors; on any other error the written one raises |
| LegacyAccountBalance.Balance | lib/rest/account_balance.rb:17-28 | never raises; a parsed body is returned with @error nil; otherwise false with @error set |
| LegacyAccountBalance.UnparsableBodyEscapes | lib/rest/account_balance.rb:17-55 | a body JSON.parse rejects makes the written `balance` raise, where the corrected one returns false with internal_server_error |
| LegacyAccountBalance.BalanceAgreesBesideParseFailures | lib/rest/account_balance.rb:17-28 | apart from parse failures, the written and corrected `balance` agree |
| LegacyAccountBalance.AccountBalance.GetBalance | lib/rest/account_balance.rb:17-28 | the result and @error are those of `Balance` after the multiplexed request |
| LegacyEmailValidations.ErrorForCode | lib/rest/email_validations.rb:97-112 | 400, 401, 402, 404, 406 and 410 each map to their own symbol; everything else, 403 and 429 included, maps to internal_server_error |
| LegacyEmailValidations.ErrorOf | lib/rest/email_validations.rb:96-113 | only an exception carrying a response records a symbol, the one for its status; any other raises NoMethodError |
| LegacyEmailValidations.PayloadReadsBack | lib/rest/email_validations.rb:30-31 | the posted entries hold each address as `inputData`, in input order |
| LegacyEmailValidations.VerifyRefusesNoEmails | lib/rest/email_validations.rb:29 | nil or empty input raises ArgumentError before any request |
| LegacyEmailValidations.VerifyOutcomes | lib/rest/email_validations.rb:28-42 | one POST; a parsed object's uniqueID becomes @unique_id and clears @response and @error; a failed status sets only @error and returns false; other failures raise |
| LegacyEmailValidations.QueryServesCache | lib/rest/email_validations.rb:49-62 | a truthy cached response is returned without a request |
| LegacyEmailValidations.QueryFailureCachesNothing | lib/rest/email_validations.rb:52-59 | a fetch that raises, or whose body JSON.parse rejects, sends one request and leaves @response and @unique_id as they were; an exception carrying a response returns false with its status's symbol in @error; any other (a transport error, a RestClient error without a response, a parse error) raises NoMethodError with every field unchanged |
| LegacyEmailValidations.OneRequestPerCall | lib/rest/email_validations.rb:28-81 | verify, query and destroy each send at most one request; query and destroy send none without a unique id |
| LegacyEmailValidations.DestroyOutcomes | lib/rest/email_validations.rb:69-81 | success clears @unique_id, @response and @error and returns true; a failed status sets only @error and returns false |
| LegacyEmailValidations.CompletedFetchesOnce | lib/rest/email_validations.rb:87-89 | `completed?` sends at most one request, and its answer compares the two counts of one truthy response |
| LegacyEmailValidations.EmailValidations.constructor | lib/rest/email_validations.rb:16-19 | the resource is host/api_version/email-validations; the unique id is taken only when it is truthy |
| LegacyEmailValidations.EmailValidations.ComputeError | lib/rest/email_validations.rb:96-113 | records the symbol of `ErrorOf`, or raises with @error unchanged |
| LegacyEmailValidations.EmailValidations.Verify | lib/rest/email_validations.rb:28-42 | the result, fields and requests are those of `VerifyOutcome` |
| LegacyEmailValidations.EmailValidations.Query | lib/rest/email_validations.rb:49-62 | the result, fields and requests are those of `QueryOutcome` |
| LegacyEmailValidations.EmailValidations.Destroy | lib/rest/email_validations.rb:69-81 | the result, fields and requests are those of `DestroyOutcome` |
| LegacyEmailValidations.EmailValidations.Completed | lib/rest/email_validations.rb:87-89 | the result, fields and requests are those of `CompletedOutcome`, which queries twice |
| Json.Compact | lib/verifalia/email_validation/client.rb:140 | `Hash#compact` keeps exactly the non-nil members, and the whole hash when none is nil |
| Json.Index | lib/rest/email_validations.rb:87-89 | `[]` with a string key succeeds exactly on a Hash or a String |

## Left out

- Faraday and RestClient plumbing is not modelled: building requests, `on_complete`, the logger, and the call to `authenticator.authenticate` inside `invoke`. Each attempt's result comes from the network oracle.
- RestApi.RestClient.Invoke: the requests it logs carry the User-Agent and the caller's headers, but not the Authorization header. `Security.UsernamePasswordAuthenticator.Authenticate` models that header separately.
- VerifaliaClient.NewClient: building a CertificateAuthenticator (file reads and OpenSSL objects) is assumed to succeed. The logger and the credits client are not built.
- Waiting.WaitOptions.WaitForNextPoll: the floating-point term `2**(Math.log10(no_of_entries) - 1)` is a parameter. `sleep` is modelled as returning the delay.
- EmailValidations.EmailValidationsClient.Get: `loop do` has no bound. The model polls at most `maxPolls` times and reports `StillPolling` when the bound is reached, so a job that never completes is not modelled.
- Job.from_json and JSON.parse of job bodies are parameters (`Env.parseJob`). JSON serialisation (`to_json`) is not modelled; payloads stay JSON values.
- LegacyRest.LegacyRequest: how RestClient joins a sub-resource key to a URL is not modelled; a request records the resource and the key.
- Security.NewUsernamePasswordAuthenticator: a username that is not a String (and so has no `strip`) is not modelled.
- Thread safety of the shared cursor is not modelled: the code uses a plain field and nothing in it runs concurrently.
- lib/rest/client.rb is not part of this model. It depends on configuration code that is not available.
- lib/verifalia/credits/client.rb is not part of this model. It is a single 200-or-raise check.
- The legacy tests that contradict the code are not modelled (see above).
- LegacyEmailValidations.EmailValidations.Completed: the two counts are compared as parsed values, member by member and in order. Ruby's Hash#== ignores member order, and JSON.parse collapses duplicate keys that `Json.Value` keeps. So two objects with the same members in another order compare unequal here.
- EmailValidations.EmailValidationsClient.Submit: keeps the callback conversion as written, so a Hash callback raises NameError as it does in the code. The intended conversion is `ConvertCallbackIntended`, stated and proved separately (see "## Findings").
- Json.Value: JSON numbers are integers only. A float count such as 1.0, which Ruby compares equal to 1, is not modelled.
- Waiting.WaitOptions.constructor: wait times are integers. Ruby accepts any object and interpolates it into `waitTime=`.

## Findings

| source | as written | input that shows it | evidently intended | confidence | as-written member | corrected member |
|---|---|---|---|---|---|---|
| lib/rest/account_balance.rb:50-55 | `compute_error` sets `@error = :internal_server_error` for a non-RestClient error but does not return, so `case e.http_code` raises NoMethodError inside the rescue clause of `balance` | a resource that answers 200 with a body JSON.parse rejects (an HTML page, say): `balance` raises NoMethodError instead of returning false | return after recording internal_server_error, so `balance` returns false | high; not executed | LegacyAccountBalance.BalanceAsWritten, LegacyAccountBalance.UnparsableBodyEscapes | LegacyAccountBalance.Balance, LegacyAccountBalance.AccountBalance.GetBalance |
| lib/verifalia/email_validation/client.rb:109-113 | converts a Hash through `Verifalia::EmailValidations::CompletionCallback`, but completion_callback.rb declares `CompletionCallback` at top level, and a constant scoped to a module does not fall back to Object, so NameError | `submit('a@b.c', completion_callback: { 'url' => 'https://example.org/cb' })` raises NameError before any request | build the top-level CompletionCallback from the Hash's url, version and skip_server_certificate_validation and send them as the payload's callback | high; not executed | EmailValidations.ConvertCallback, EmailValidations.HashCallbackRaises | EmailValidations.ConvertCallbackIntended, EmailValidations.HashCallbackReachesPayload |
| lib/verifalia/email_validation/client.rb:171-194 | `get` defaults nil options only into `wait_options_or_default`, then calls `progress` and `wait_for_next_poll` on the nil argument | `get(id)` whose first poll answers 202: NoMethodError after one request | use the defaulted options for the progress callback and the wait, as `submit` does when it hands over to `get` | high; not executed | EmailValidations.OnePassWhenNoWaitOrNil, EmailValidations.NilOptionsCrashWhereDefaultPolls | EmailValidations.GetLoopPollsAgain, EmailValidations.SubmitFirstAnswer |
