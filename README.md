# php-transmission-sdk: the RPC pipeline, modelled in Dafny

This project models the core of the PHP Transmission-RPC SDK. That core is the path a client
call takes to a Transmission daemon and back, plus the decision tables applied to torrent records.

1. **Arguments.** `ParamBuilder::build` sanitises the argument array. It drops blank entries,
   recurses into nested arrays, and turns numbers, booleans and non-UTF-8 strings into their
   wire form.
2. **Request.** `Client::api` posts `{method, arguments}` as JSON to `hostname:port/transmission/rpc`.
   The request goes through the builder's plugin chain:
   - `ExceptionThrower`;
   - `History`;
   - `HeaderDefaults` (the User-Agent);
   - the basic-auth plugin, when credentials are filled;
   - an `AuthSession` plugin holding the `X-Transmission-Session-Id`.
3. **Session handshake.** A 409 reply carries the session id. `findAndSetSessionId` installs it,
   replacing any earlier `AuthSession` plugin, and the same call is posted again. There is no
   retry bound. A blank id raises a `TransmissionException`.
4. **Replies.** `ResponseMediator` classifies the status into bands and reduces the body to
   decoded JSON or text. `ExceptionThrower` decides on the reply:
   - pass it through;
   - raise a `TransmissionException` for a result-level error on a 2xx;
   - raise a `NetworkException`, whose message `NetworkException::createByCode` formats from its
     status table.
5. **Builder.** `HttpClient\Builder` keeps:
   - the plugin list, edited in place;
   - a "modified" flag;
   - a cached plugin client, rebuilt only when the flag is set.
6. **Wrappers.** The client's wrapper methods (`start`, `set`, `get`, `add`, `remove`,
   `seedRatioLimit`, the queue moves, …) build argument arrays and interpret the replies.
7. **Records.** `AbstractModel` gates attribute casting on an instance flag and a per-class
   `$casts` table. Its magic getter resolves `getFooBar()` to the attribute `fooBar`. `Torrent`
   maps status, error and seed-ratio-mode integers to strings and values. It uses PHP's loose
   `switch` comparison, so a null status is treated as status 0.

## How the model is built

The modules follow the source's classes, with a few support modules beside them:
- `ParamBuilder`, `ResponseMediator`, `ExceptionThrower`, `NetworkException`, `HttpClientBuilder`,
  `Models` and `TorrentModel` each stand for the source file of that name
  (`HttpClientBuilder` for `src/HttpClient/Builder.php`, `Models` for `AbstractModel.php`).
- `src/Client.php` is split in three: `Rpc` holds `api()` as a reference function over a
  script of replies, `Commands` the argument arrays and reply handling of the wrapper methods,
  and `TransmissionClient` the `Client` class itself.
- `Plugins` models `src/HttpClient/Plugin/AuthSession.php` together with the library plugins the
  chain uses (basic auth, header defaults, history).
- `Php`, `PhpStrings`, `Http`, `Failures`, `Wrappers` and `Sequences` stand for no source file:
  they spell out PHP values and semantics, PSR-7 messages, the exception types, and an Option and
  Result type with sequence lemmas.

**Pure parts.** Parameter building, response classification, exception selection and the torrent
tables are datatypes and functions over a PHP value type `Php.Value`:
- null, bool, int, float, string;
- an ordered array of key/value pairs;
- an object handle.

PHP semantics are spelled out where the core depends on them, in `Php` and `PhpStrings`:
- `trim`, `blank`/`filled`;
- PHP 8 `is_numeric` and `$value + 0`;
- loose `==` and truthiness;
- array `+`, `isset`, `data_get`;
- the array-key cast;
- `Str::camel`.

**Library functions.** Functions the core calls but does not define are fields of a
`Php.Runtime` value passed in as a parameter. These are `json_encode`/`json_decode`, `strip_tags`,
`mb_detect_encoding`/`mb_convert_encoding`, `base64_encode`, `Formatter::castAttribute`,
float parsing, and an object's `toArray`/`count`/`__toString`.

**Imperative parts.** These are classes:
- `HttpClientBuilder.Builder`: fields `httpClient`, `pluginClient`, `httpClientModified` and
  `plugins`, with `modifies` clauses on its methods.
- `HttpClientBuilder.Transport`: the HTTP transport, reduced to a script of responses it will
  hand back and a log of the requests it has delivered.
- `TransmissionClient.Client`: holds the builder.
- `Models.AbstractModel`: holds the items and the casting flag.

Because the transport's script is finite, `Client.Api` terminates without any retry bound being
added.

**Client methods.** Each `Client` method is proved against a reference function:
- `Rpc.ConverseFrom`, which recursively plays `api()` over the script;
- `Client.Predict`, which also accounts for a cached plugin client left pointing at an old
  transport by `setHttpClient`.

Each method states its result and the new state of both transports in terms of these functions.
Lemmas in `Rpc` and `Commands` then say what those functions promise.

## Model

| member | source | states |
|---|---|---|
| ParamBuilder.Reject | src/HttpClient/Message/ParamBuilder.php:19-22 | the kept entries are exactly the input entries whose value is not blank, in their original order (a subsequence of the input) |
| ParamBuilder.Transform | src/HttpClient/Message/ParamBuilder.php:22-37 | a kept value never comes out a boolean; null stays null and nothing else becomes null; arrays and objects come out as arrays; numbers come out exactly for numbers, numeric strings and booleans |
| ParamBuilder.BuildCons | src/HttpClient/Message/ParamBuilder.php:19-38 | build of a leading entry drops it when blank and otherwise emits its transformed value ahead of the rest |
| ParamBuilder.BuildKeys | src/HttpClient/Message/ParamBuilder.php:17-38 | the output keys are the keys of the non-blank entries, in order, and so a subsequence of the input keys; no key is treated specially |
| ParamBuilder.BuildLookup | src/HttpClient/Message/ParamBuilder.php:19-37 | for unique keys: a key missing or blank in the input is missing in the output; otherwise it maps to the transformed value |
| ParamBuilder.BlankEntryAbsent | src/HttpClient/Message/ParamBuilder.php:20-22 | an entry whose value is blank does not appear in the output |
| ParamBuilder.FilledEntryKept | src/HttpClient/Message/ParamBuilder.php:20-37 | an entry whose value is filled appears under the same key with its transformed value |
| ParamBuilder.Build | src/HttpClient/Message/ParamBuilder.php:17-38 | no value sent is null or a boolean |
| ParamBuilder.BooleansBecomeIntegers | src/HttpClient/Message/ParamBuilder.php:29-30 | `false` is kept and sent as 0, `true` as 1 |
| ParamBuilder.ZerosAreKept | src/HttpClient/Message/ParamBuilder.php:19-28 | `0` and `'0'` are not blank; both are sent as the integer 0 |
| ParamBuilder.ZeroStringBecomesZero | src/HttpClient/Message/ParamBuilder.php:27-28 | `'0' + 0` is the integer 0 |
| ParamBuilder.DigitStringBecomesInteger | src/HttpClient/Message/ParamBuilder.php:27-28 | a digit string within the integer range becomes the integer it spells |
| ParamBuilder.NumbersUnchanged | src/HttpClient/Message/ParamBuilder.php:27-28 | integers and floats pass through `+ 0` unchanged |
| ParamBuilder.StringsBecomeNumbersIffNumeric | src/HttpClient/Message/ParamBuilder.php:27-37 | a string becomes a number exactly when it is numeric; any other string stays a string |
| ParamBuilder.Utf8TextUnchanged | src/HttpClient/Message/ParamBuilder.php:31-37 | a non-numeric string detected as UTF-8 is sent as it is |
| ParamBuilder.RecentlyActiveUnchanged | src/HttpClient/Message/ParamBuilder.php:31-37 | `'recently-active'` gets no special handling: it is sent as it is, or converted like any other text mbstring does not report as UTF-8, which includes a detection as ASCII |
| ParamBuilder.OtherEncodingsConverted | src/HttpClient/Message/ParamBuilder.php:31-34 | a non-numeric string in another encoding is converted to UTF-8 |
| ParamBuilder.AllBlankNestedArrayKept | src/HttpClient/Message/ParamBuilder.php:19-26 | a non-empty nested array of blanks is kept and comes out as an empty array, because blanks are rejected before the recursion |
| ParamBuilder.NestedArraysSanitised | src/HttpClient/Message/ParamBuilder.php:25-26 | a nested array comes out an array whose keys are those of its non-blank entries, and none of whose values is null or a boolean |
| ParamBuilder.ObjectsNotSanitised | src/HttpClient/Message/ParamBuilder.php:19-24 | every object that is not blank is sent as its `toArray()` result, which is not sanitised further (a null inside it survives) |
| ParamBuilder.NotIdempotent | src/HttpClient/Message/ParamBuilder.php:17-38 | building twice can differ from building once: an array of blanks is kept as `[]` and then dropped |
| Php.FalseAndZeroNotBlank | src/HttpClient/Message/ParamBuilder.php:20-22 | `false` and `0` are not blank |
| Php.ZeroStringNotBlank | src/HttpClient/Message/ParamBuilder.php:20-22 | `'0'` is not blank |
| Php.BlankExamples | src/HttpClient/Message/ParamBuilder.php:20-22 | null, `''` and `[]` are blank |
| Php.Lookup | src/Client.php:344-358 | a key is found exactly when some entry carries it, and the value found is that entry's |
| Php.Assign | src/Client.php:344-348 | assigning to an existing key keeps the key order; a new key is appended |
| Php.AssignLookup | src/Client.php:344-348 | after assignment the key holds the new value and every other key is unchanged |
| Php.AssignKeepsUnique | src/Client.php:344-348 | assignment keeps the array's keys unique |
| Php.Add | src/Models/Torrent.php:195-200 | PHP `+`: array union for two arrays; otherwise it succeeds exactly when both operands are numbers, null, booleans or numeric strings, and an integer sum outside the 64-bit range becomes a float |
| Php.Union | src/Models/Torrent.php:195-200 | array `+` keeps the left operand's entries and adds only the right operand's missing keys |
| Php.ArrayableItems | src/Client.php:320-322 | the items `collect()` is made from; what it promises for get() is proved in Commands.GetCountsTorrents and Commands.MissingTorrentsGiveOneBogusTorrent |
| Php.ToText | src/Models/Torrent.php:350-363 | string conversion for concatenation; it fails only for an object without `__toString` |
| ResponseMediator.BandOf | src/HttpClient/Message/ResponseMediator.php:19-98 | each status is in exactly one band (informational, success, redirect, client error, server error with no upper bound), or in none below 100 |
| ResponseMediator.ErrorIffAtLeast400 | src/HttpClient/Message/ResponseMediator.php:71-110 | isError holds exactly for a status of 400 or more; a 409 is a client error, an error and not a success |
| ResponseMediator.ErrorContentIsText | src/HttpClient/Message/ResponseMediator.php:119-126 | for an error status the content is always the tag-stripped body as a string |
| ResponseMediator.DecodedOnlyForJson | src/HttpClient/Message/ResponseMediator.php:128-135 | for a non-error status the content is decoded JSON only when Content-Type starts with `application/json` and decoding succeeds; otherwise it is the raw body |
| ResponseMediator.ContentDependsOnlyOn | src/HttpClient/Message/ResponseMediator.php:119-136 | the content depends only on whether the status is an error, the body and the Content-Type line |
| ResponseMediator.GetContent | src/HttpClient/Message/ResponseMediator.php:119-136 | error content is text; any non-text content is the JSON decoding of a body whose Content-Type starts with `application/json` |
| ExceptionThrower.Classification | src/HttpClient/Plugin/ExceptionThrower.php:21-49 | a TransmissionException is raised exactly for a 2xx whose content reports a failure; a NetworkException exactly for a status of 400 or more other than 409; otherwise the response passes |
| ExceptionThrower.ResultErrorCarriesResult | src/HttpClient/Plugin/ExceptionThrower.php:27-30 | a 2xx array reply whose `result` is set and is not `'success'` raises a TransmissionException carrying that result and the status |
| ExceptionThrower.SuccessPasses | src/HttpClient/Plugin/ExceptionThrower.php:27-47 | a 2xx reply that is not an array, or whose result is missing, null or `'success'`, passes through |
| ExceptionThrower.ConflictPasses | src/HttpClient/Plugin/ExceptionThrower.php:31-47 | a 409 never raises |
| ExceptionThrower.InformationalAndRedirectPass | src/HttpClient/Plugin/ExceptionThrower.php:27-47 | 1xx and 3xx replies pass through |
| ExceptionThrower.UnauthorizedMessage | src/HttpClient/Plugin/ExceptionThrower.php:33-44 | a 401 raises the NetworkException with 'Invalid Username/Password', whatever the body, and the message reads `401: Unauthorized - Invalid Username/Password` |
| ExceptionThrower.ForbiddenMessage | src/HttpClient/Plugin/ExceptionThrower.php:36-44 | a 403 raises with 'Your IP Address is Not Whitelisted', and the message reads `403: Forbidden - …` |
| ExceptionThrower.OtherErrorsUseStrippedBody | src/HttpClient/Plugin/ExceptionThrower.php:39-44 | any other status of 400 or more except 409 raises with the stripped body text; error content is never an array, so the `result` branch is dead |
| ExceptionThrower.HandleResponse | src/HttpClient/Plugin/ExceptionThrower.php:21-49 | a 409 passes; only a TransmissionException or a NetworkException is raised; a TransmissionException only for a success status, carrying it as its code; a NetworkException only for an error status, carrying it |
| NetworkException.StatusText | src/Exception/NetworkException.php:10-70 | the `$statusCodes` lookup behind the message; what it promises is proved in NetworkException.MessageStartsWithCode and NetworkException.TableCodesAreErrors |
| NetworkException.Detail | src/Exception/NetworkException.php:72-74 | the `- ` prefix rule behind the message; what it promises is proved in NetworkException.FilledMessageFormat and NetworkException.InternalServerErrorWithoutMessage |
| NetworkException.CreateByCode | src/Exception/NetworkException.php:68-79 | the exception code is the status code given |
| NetworkException.TableCodesAreErrors | src/Exception/NetworkException.php:10-58 | every code in the table is in [400, 600), and 409 (CONFLICT) maps to 'Conflict' |
| NetworkException.MessageStartsWithCode | src/Exception/NetworkException.php:76 | the message starts with the decimal code and then `: `, and no colon occurs inside the code |
| NetworkException.CodeReadsBack | src/Exception/NetworkException.php:76 | the leading digits of the message spell the status code |
| NetworkException.MessagesDistinguishCodes | src/Exception/NetworkException.php:68-79 | two exceptions with the same message were created for the same status code |
| NetworkException.FilledMessageFormat | src/Exception/NetworkException.php:72-76 | with a filled message the text is exactly `<code>: <table text> - <message>` |
| NetworkException.InternalServerErrorWithoutMessage | src/Exception/NetworkException.php:72-76 | a null or empty message gives `500: Internal Server Error ` with its trailing space |
| Http.WithoutHeader | src/HttpClient/Plugin/AuthSession.php:31 | removing a header leaves no value under any spelling of its name and every other header as it was |
| Http.WithHeaderSets | src/HttpClient/Plugin/AuthSession.php:31 | after `withHeader` the header, asked for in any case, has exactly the one new value |
| Http.WithHeaderKeepsOthers | src/HttpClient/Plugin/AuthSession.php:31 | `withHeader` leaves every other header unchanged |
| Http.WithHeaderTwice | src/HttpClient/Plugin/AuthSession.php:31 | a second `withHeader` replaces the first rather than appending |
| Plugins.AuthSessionRequest | src/HttpClient/Plugin/AuthSession.php:28-35 | the forwarded request keeps the verb, URI and body |
| Plugins.PluginRequest | src/HttpClient/Plugin/AuthSession.php:28-35 | no plugin of the chain changes the request's verb, URI or body |
| Plugins.FilledSessionSetsHeader | src/HttpClient/Plugin/AuthSession.php:30-32 | with a filled session id the forwarded request carries exactly one `X-Transmission-Session-Id`, equal to it |
| Plugins.SessionHeaderReplaces | src/HttpClient/Plugin/AuthSession.php:31 | an earlier session header value is replaced, not kept beside the new one |
| Plugins.SessionKeepsOtherHeaders | src/HttpClient/Plugin/AuthSession.php:31 | every other header is forwarded unchanged |
| Plugins.BlankSessionForwardsUnchanged | src/HttpClient/Plugin/AuthSession.php:30-34 | with a blank session id the request is forwarded unchanged |
| Plugins.ThroughChain | src/HttpClient/Plugin/AuthSession.php:34 | passing a request through the chain keeps its verb, URI and body |
| Plugins.ThroughChainAppend | src/HttpClient/Plugin/AuthSession.php:34 | a plugin appended to the chain sees the request after every earlier plugin |
| Plugins.LastSessionWins | src/Client.php:180-186 | an AuthSession plugin at the end of the chain decides the session header that is sent |
| HttpClientBuilder.ChainVerdictUnaffected | src/HttpClient/Builder.php:115-140 | removing a plugin class other than ExceptionThrower, or appending a plugin of another class, leaves the chain's verdict on every reply unchanged |
| Plugins.DefaultsDoNotOverride | src/Client.php:88-90 | a default header is not applied where the request already has that header |
| Plugins.DefaultsFillIn | src/Client.php:88-90 | a default header is set where the request lacks it |
| HttpClientBuilder.Builder.constructor | src/HttpClient/Builder.php:44-58 | a new builder has no plugins and no built client, and the modified flag starts true |
| HttpClientBuilder.Builder.GetHttpClient | src/HttpClient/Builder.php:63-72 | it rebuilds the plugin client from the current transport and plugins only when the flag is set, then clears the flag; otherwise it returns the cached client |
| HttpClientBuilder.Builder.SetHttpClient | src/HttpClient/Builder.php:81-86 | it replaces the transport but leaves the flag and the cached client alone, so a built client keeps the old transport |
| HttpClientBuilder.Builder.AddPlugin | src/HttpClient/Builder.php:115-121 | the plugin is appended after the others, in order, and the flag is set |
| HttpClientBuilder.Builder.RemovePlugin | src/HttpClient/Builder.php:130-140 | every plugin of the class goes and the rest keep their order; the flag is set only when something was removed |
| HttpClientBuilder.Builder.SendRequest | src/HttpClient/Builder.php:169-172 | the request goes through the (re)built client's chain to its transport, which consumes one scripted response; the chain's verdict decides the result |
| HttpClientBuilder.PluginClient.SendRequest | src/HttpClient/Builder.php:169-172 | the transport is sent the chain-rewritten request and the result is the chain's verdict on the reply; an exhausted transport fails and is left unchanged |
| HttpClientBuilder.WithoutClass | src/HttpClient/Builder.php:130-140 | the kept list is a subsequence of the original |
| HttpClientBuilder.WithoutClassMembers | src/HttpClient/Builder.php:130-140 | the kept plugins are exactly the original plugins of other classes |
| HttpClientBuilder.WithoutClassCounts | src/HttpClient/Builder.php:130-140 | none of the removed class remains, and the count of every other class is unchanged |
| HttpClientBuilder.WithoutClassIdempotent | src/HttpClient/Builder.php:130-140 | removing a class twice equals removing it once |
| HttpClientBuilder.WithoutAbsentClass | src/HttpClient/Builder.php:130-140 | removing a class that is absent leaves the list as it was |
| HttpClientBuilder.ReplaceLeavesOne | src/Client.php:180-186 | remove-then-add of one class leaves exactly one plugin of that class, last in the list, after the others in their old order |
| Rpc.PostRequest | src/Client.php:645-652 | the request is a POST to the URL with the JSON body and `Content-Type: application/json` |
| Rpc.RequestBodyDropsBlank | src/Client.php:645-649 | a blank argument never changes the posted body |
| Rpc.WithSession | src/Client.php:180-186 | the new AuthSession plugin ends the list |
| Rpc.SessionReplaced | src/Client.php:180-186 | after setSessionId the list holds one AuthSession, and the other plugins before it are the old ones in their old order |
| Rpc.SessionKeepsOtherClasses | src/Client.php:180-186 | setSessionId leaves one AuthSession and the number of plugins of every other class as it was |
| Rpc.WithAuthentication | src/Client.php:163-171 | the new BasicAuth plugin ends the list |
| Rpc.AuthenticationReplaced | src/Client.php:163-171 | after authenticate the list holds one BasicAuth plugin, and the other plugins before it are the old ones in their old order |
| Rpc.SettleOutcome | src/Client.php:654-661 | a 409 that is not a session challenge fails with 'Unable to retrieve X-Transmission-Session-Id' whatever the chain; content comes back only for a non-409 reply the chain passes, and is then getContent of it |
| Rpc.ConverseFrom | src/Client.php:641-661 | an exchange sends no request when nothing can be delivered, and otherwise at most one per scripted response |
| Rpc.ExchangeStep | src/Client.php:641-661 | the first request is the chain-rewritten post; without a challenge the exchange ends there; after a challenge it continues with the session plugin installed |
| Rpc.UnchallengedEnds | src/Client.php:654-660 | an exchange without a session challenge posts once and leaves the plugins alone |
| Rpc.SameMessageEverySend | src/Client.php:654-658 | every request, retries included, posts the same method and arguments to the same URL |
| Rpc.NothingDeliveredFails | src/Client.php:645-652 | when the transport cannot deliver, the call fails and nothing is sent |
| Rpc.AnswerReturnsContent | src/Client.php:660 | a reply that passes the chain and is not a 409 gives getContent of the reply |
| Rpc.RaisedFailureEndsCall | src/Client.php:645-652 | an exception raised by the chain ends the call after one post |
| Rpc.BlankSessionIdStops | src/Client.php:671-677 | a 409 whose session header is blank raises 'Unable to retrieve X-Transmission-Session-Id', with no resend and no change to the plugins |
| Rpc.ChallengeContinues | src/Client.php:654-658 | after a challenge the exchange is the first post followed by the whole exchange under the new session plugin |
| Rpc.ConflictRetriesWithSession | src/Client.php:654-658 | on a 409 the same call is posted again and the retry carries the session id the 409 named |
| Rpc.RetryCarriesSession | src/Client.php:654-658 | the first post after a session is installed carries that session id |
| Rpc.ConflictPassesChain | src/HttpClient/Plugin/ExceptionThrower.php:31 | a 409 passes every plugin chain |
| Rpc.NoRetryBound | src/Client.php:654-658 | a script of nothing but challenges is posted against once per response and then fails: there is no retry limit |
| Rpc.NegotiatedChainHasOneSession | src/Client.php:180-186 | after a negotiation the chain holds exactly one AuthSession plugin, at the end, and the count of every other class is unchanged |
| TransmissionClient.Client.constructor | src/Client.php:75-99 | hostname, port, username and password come from the arguments, else the environment, else 127.0.0.1 / 9091 / none / ''; the plugins are the existing ones plus ExceptionThrower, History and the User-Agent defaults, with authentication added as `authenticate` does |
| TransmissionClient.AuthenticatesOnlyWhenFilled | src/Client.php:93-98 | the constructor installs authentication exactly when the username is filled |
| TransmissionClient.BaseHasNoAuthentication | src/Client.php:84-90 | the plugins the constructor always adds include no authentication plugin |
| TransmissionClient.Client.Authenticate | src/Client.php:163-171 | any authentication plugin is removed and a new one with the credentials is appended |
| TransmissionClient.Client.SetSessionId | src/Client.php:180-186 | any AuthSession plugin is removed and a new one with the id is appended |
| TransmissionClient.Client.FindAndSetSessionId | src/Client.php:671-682 | a blank `x-transmission-session-id` raises and leaves the plugins alone; a filled one is installed as the session |
| TransmissionClient.Client.GetHttpClient | src/Client.php:709-712 | the corrected client: the builder's plugin client wrapped in an HTTP-methods client |
| TransmissionClient.Client.GetHttpClientAsWritten | src/Client.php:709-712 | as written, the declared return type refuses the plugin client with a TypeError |
| TransmissionClient.Client.ApiAsWritten | src/Client.php:641-661 | as written, every RPC call fails with that TypeError before anything is sent |
| TransmissionClient.HttpMethodsClient.Post | src/Client.php:645-651 | `post($uri, $headers, $body)` sends a POST through the chain and answers with the chain's verdict |
| TransmissionClient.Client.PostOnce | src/Client.php:645-652 | one post of the call's body to the RPC URL through the built client |
| TransmissionClient.Client.Api | src/Client.php:641-661 | the result and the new state of both transports are those the reference exchange predicts, session renegotiation included |
| TransmissionClient.Client.Renegotiate | src/Client.php:654-658 | after a 409 it installs the session, or raises for a blank id, and re-issues the call as the exchange predicts |
| TransmissionClient.Client.Perform | src/Client.php:198-267 | start, startNow, stop, verify, reannounce and the queue moves (lines 507-563) post their method with `ids` and return true unless the call raised |
| Commands.QueueMoveUpSendsTop | src/Client.php:524-529 | queueMoveUp posts 'queue-move-top', like queueMoveTop |
| Commands.ActionMethodsOtherwiseDistinct | src/Client.php:198-563 | apart from that pair, the id-only wrappers post distinct methods |
| Commands.ActionSendsIds | src/Client.php:198-203 | the id-only wrappers post their own method and send only `ids`, and nothing when `ids` is blank |
| TransmissionClient.Client.Set | src/Client.php:279-285 | posts torrent-set with `ids` assigned into the arguments and returns true unless the call raised |
| Commands.SetCall | src/Client.php:279-282 | set posts torrent-set and the arguments it sends hold its own `ids` |
| Commands.SetOverridesIds | src/Client.php:279-282 | `set` overwrites any `ids` in the arguments with its own and leaves every other argument as it was |
| TransmissionClient.Client.Get | src/Client.php:310-324 | posts torrent-get with the ids and fields (the default field list when none are given) and interprets the reply |
| TransmissionClient.Client.GetAll | src/Client.php:294-297 | is `get` with null ids |
| Commands.GetSends | src/Client.php:310-313 | get sends `ids` and then `fields` (the default list when none is given), each only when filled, so an empty field list is not sent at all |
| Commands.DataGet | src/Client.php:315 | `data_get` with an empty path gives the value itself; a first key the value does not hold gives the default; a one-key path gives the entry |
| Commands.InterpretGet | src/Client.php:315-323 | a blank `arguments.torrents` gives an empty collection; a filled one gives one Torrent for a single item, a collection of all of them for more, and fails only when it has no items to map |
| Commands.GetCountsTorrents | src/Client.php:315-323 | no torrents give an empty collection, exactly one gives that single Torrent, more give a collection of all of them in order |
| Commands.NoTorrentsGiveEmpty | src/Client.php:317-319 | a null or empty torrent list gives an empty collection |
| Commands.MissingTorrentsGiveOneBogusTorrent | src/Client.php:315-323 | a reply that is not an array makes `data_get` return its default 0, which is not blank, so get returns one Torrent over `[0]` |
| TransmissionClient.Client.Add | src/Client.php:338-361 | posts torrent-add, then fetches a duplicate with `get` on its id, returns the added fields, or raises |
| TransmissionClient.Client.FetchDuplicate | src/Client.php:352-354 | the duplicate's torrent is fetched by a second call, from the state the first call left |
| Commands.AddMetainfo | src/Client.php:344 | with metainfo the torrent is stored base64-encoded under `metainfo` and `filename` is left as given |
| Commands.AddFilename | src/Client.php:344 | without metainfo the torrent is stored under `filename` and `metainfo` is left as given |
| Commands.AddDownloadDir | src/Client.php:346-348 | `download-dir` is set to the save path only when one is given |
| Commands.DuplicateTakesPrecedence | src/Client.php:352-354 | a `torrent-duplicate` reply is answered by the duplicate's id |
| Commands.NotAddedThrows | src/Client.php:356-358 | a reply with neither key raises InvalidArgumentException carrying the result |
| Commands.AddedReturnsFields | src/Client.php:356-360 | otherwise the added torrent's fields are returned |
| Commands.InterpretAdd | src/Client.php:350-360 | an answer, or the InvalidArgumentException, comes only from an array reply with array `arguments`; a duplicate is answered exactly when `torrent-duplicate` is present, an added torrent only when `torrent-added` is, and the exception only when neither is |
| Commands.AddOutcome | src/Client.php:338-361 | the reply handling of add(); what it promises is proved in Commands.NotAddedThrows and Commands.AddedReturnsFields |
| Commands.NonArrayArgumentsFail | src/Client.php:352 | a reply whose `arguments` is not an array makes `array_key_exists` fail |
| TransmissionClient.Client.Remove | src/Client.php:373-379 | posts torrent-remove and returns true unless the call raised |
| Commands.RemoveSendsExactly | src/Client.php:375-376 | remove sends exactly `ids` and `delete-local-data`, the flag as 0 or 1 |
| TransmissionClient.Client.Move | src/Client.php:392-397 | posts torrent-set-location with ids, location and move and returns true unless the call raised |
| Commands.MoveSends | src/Client.php:392-397 | move sends `ids` and `location` when filled, and always `move` as 0 or 1 |
| TransmissionClient.Client.Rename | src/Client.php:410-413 | posts torrent-rename-path and returns the reply, which must be an array |
| Commands.RenameSends | src/Client.php:410-413 | rename sends `ids`, `path` and `name`, each when filled, in that order |
| TransmissionClient.Client.SetSettings | src/Client.php:426-431 | posts session-set with the arguments as given and returns true unless the call raised |
| TransmissionClient.Client.GetSettings | src/Client.php:442-445 | posts session-get with the fields (null when none) and returns the reply, which must be an array |
| Commands.GetSettingsSends | src/Client.php:442-445 | getSettings posts session-get and sends `fields` only for a non-empty list; with none or an empty one it asks for everything |
| Commands.ArrayReply | src/Client.php:442-445 | the `: array` return check; what it promises for the wrappers is proved in Commands.ArrayTypedReturnsReply |
| Commands.Succeeded | src/Client.php:279-285 | the `return true` after api(); what it promises is proved in Commands.SucceededNeverFalse |
| Commands.ArrayTypedReturnsReply | src/Client.php:442-445 | an array-typed wrapper returns the reply unchanged exactly when it is an array, raises a TypeError for any other reply, and passes a raised failure on |
| Commands.SucceededNeverFalse | src/Client.php:279-285 | a wrapper ending in `return true` answers true or passes on the failure, and never answers false |
| TransmissionClient.Client.SessionStats | src/Client.php:454-457 | posts session-stats with no arguments and returns the array reply |
| TransmissionClient.Client.UpdateBlocklist | src/Client.php:466-469 | posts blocklist-update with no arguments and returns the array reply |
| TransmissionClient.Client.PortTest | src/Client.php:478-481 | posts port-test and returns `arguments.port-is-open` under a bool return type |
| Commands.BoolReturn | src/Client.php:478-481 | the `: bool` return coercion; what it promises for portTest is proved in Commands.PortTestReadsFlag and Commands.PortTestWithoutFlagFails |
| Commands.ArgumentsEntry | src/Client.php:480 | reads `arguments[key]` of the reply when both are present |
| Commands.PortTestReadsFlag | src/Client.php:478-481 | a reply carrying `port-is-open` gives that flag |
| Commands.PortTestWithoutFlagFails | src/Client.php:478-481 | a reply without it fails the bool return type |
| TransmissionClient.Client.Close | src/Client.php:490-495 | posts session-close and returns true unless the call raised |
| TransmissionClient.Client.FreeSpace | src/Client.php:574-581 | a filled path is asked about directly; a blank one is first read from the settings' `download-dir` and then asked about |
| TransmissionClient.Client.FreeSpaceInDownloadDir | src/Client.php:575-580 | the two calls of the blank-path case, the second from the state the first left |
| Commands.FreeSpaceReturnsArguments | src/Client.php:580 | free-space returns the reply's `arguments`, which must be an array |
| TransmissionClient.Client.SeedRatioLimit | src/Client.php:588-597 | asks session-get for the two ratio settings and returns the limit, or -1 |
| Commands.SeedRatioLimitSends | src/Client.php:590 | seedRatioLimit posts session-get and sends exactly `fields` with `seedRatioLimited` and `seedRatioLimit`, in that order |
| Commands.SeedRatioLimitOf | src/Client.php:590-596 | the answer is -1, null, or the settings' `seedRatioLimit`; anything but -1 means `seedRatioLimited` is set |
| Commands.SeedRatioUnlimited | src/Client.php:592-596 | without `seedRatioLimited` set, the answer is -1 |
| Commands.SeedRatioLimitedFalseStillReturnsLimit | src/Client.php:592-594 | `isset` is true for `false`, so a limited flag of false still returns the limit |
| TransmissionClient.Client.UpdateDownloadDir | src/Client.php:606-613 | is setSettings with just `download-dir` |
| Commands.UpdateDownloadDirSends | src/Client.php:606-613 | updateDownloadDir posts session-set with just `download-dir`, nothing when it is blank |
| TransmissionClient.Client.UpdateIncompleteDir | src/Client.php:623-631 | is setSettings with `incomplete-dir-enabled` and `incomplete-dir` |
| Commands.UpdateIncompleteDirSends | src/Client.php:623-631 | updateIncompleteDir posts session-set with the enable flag as 0 or 1, then the directory when filled |
| TransmissionClient.UndefinedMethod | src/Client.php:728-733 | an undefined client method raises BadMethodCallException |
| TransmissionClient.UndefinedMethodNamesIt | src/Client.php:728-733 | the exception message names the method called |
| TransmissionClient.SnapAfterNothing | src/HttpClient/Builder.php:63-72 | a call that sent nothing leaves both transports as they were |
| TransmissionClient.SnapAfterOnce | src/HttpClient/Builder.php:63-86 | a single post consumes one response of the built client's transport, which is also the builder's when setHttpClient has not replaced it |
| TransmissionClient.SnapAfterRetry | src/HttpClient/Builder.php:63-86 | after a challenge the rebuilt client posts to the builder's current transport |
| TransmissionClient.SnapAfterKeepsHost | src/HttpClient/Builder.php:81-86 | a call never changes which transport the builder holds |
| Models.FormatterPassesThrough | src/Formatter.php:127-153 | null is never cast, a type the formatter does not handle (such as `bytes`) returns the value unchanged |
| Models.CastOnlyWhenEnabledAndListed | src/Models/AbstractModel.php:83-90 | a value is cast only when casting is enabled and its key is in `$casts`, and then with that cast type |
| Models.CastAttribute | src/Models/AbstractModel.php:83-90 | a value is returned unchanged unless casting is enabled and the key is in `$casts`; null stays null |
| Models.ModelGet | src/Models/AbstractModel.php:35-40 | without an applicable cast, get returns the stored value or the default; a missing key with no default gives null |
| Models.GetFlagPrecedence | src/Models/AbstractModel.php:35-40 | an explicit castingEnabled, `false` included, wins over the instance flag; the flag applies only when none is passed |
| Models.CastAll | src/Models/AbstractModel.php:69-74 | casting all attributes keeps the number of items |
| Models.CastAllKeepsKeys | src/Models/AbstractModel.php:69-74 | casting all attributes keeps the keys in order, and with casting off changes nothing |
| Models.LookupCastAll | src/Models/AbstractModel.php:69-74 | after casting all attributes each key holds the cast of its old value |
| Models.ReadAfterCastAll | src/Models/AbstractModel.php:35-74 | reading after toArray's in-place cast equals reading with the instance flag before it |
| Models.Arrayed | src/Models/AbstractModel.php:45-50 | toArray keeps every key in its place, turns each Arrayable item into its `toArray()` and leaves every other item as it was |
| Models.BoolArgument | src/Models/AbstractModel.php:100-113 | a bool argument passes to the `bool $castingEnabled` parameter as it is |
| Models.MagicCallThrows | src/Models/AbstractModel.php:100-106 | the magic getter throws BadMethodCallException exactly when the name does not start with `get` or the derived attribute is missing, with the message `Method <class>::<name> does not exist.` |
| Models.MagicCall | src/Models/AbstractModel.php:100-113 | an answer means the name starts with `get` and names a present attribute; it is get() of that attribute under the instance flag when no or a null argument is given, under the argument when it is a bool; an array or object argument fails |
| Models.GetterAttribute | src/Models/AbstractModel.php:102-103 | `get` + `FooBar` resolves to the attribute `fooBar` |
| Models.MagicGetterReads | src/Models/AbstractModel.php:100-113 | a getter for a present attribute called with `false` returns the stored value |
| Models.MagicGetterMissing | src/Models/AbstractModel.php:104-106 | a getter for a missing attribute throws, whatever its arguments |
| Models.AbstractModel.constructor | src/Models/AbstractModel.php:19-28 | a new model holds the items, with casting disabled |
| Models.AbstractModel.EnableCasting | src/Models/AbstractModel.php:59-64 | sets the flag to its argument (true by default), leaves the items and returns the model itself |
| Models.AbstractModel.CastAllAttributes | src/Models/AbstractModel.php:69-74 | replaces the items in place with their casts under the instance flag |
| Models.AbstractModel.ToArray | src/Models/AbstractModel.php:45-50 | casts the items in place first, then returns them as arrays |
| TorrentModel.PlainField | src/Models/Torrent.php:140-152 | an attribute not in the torrent's `$casts` is read as stored |
| TorrentModel.StatusIsRaw | src/Models/Torrent.php:291-294 | status is read uncast, null when absent |
| TorrentModel.OnlyDatesAreCast | src/Models/Torrent.php:140-152 | only the five date fields are ever transformed (to datetime); the byte fields use a cast type the formatter passes through |
| TorrentModel.NameOrUnknown | src/Models/Torrent.php:159-162 | the name is the stored one, or 'Unknown' when there is none |
| TorrentModel.WorkingStatusNamed | src/Models/Torrent.php:306-317 | statuses 1 to 6 read 'Queued for verification', 'Verifying local data', 'Queued for download', 'Downloading', 'Queued for seeding', 'Seeding' |
| TorrentModel.StoppedNamed | src/Models/Torrent.php:303-305 | status 0, and under loose `==` a null status too, reads 'Seeding complete' when isFinished and 'Paused' otherwise, though a null status is not stopped |
| TorrentModel.OtherStatusIsError | src/Models/Torrent.php:320-321 | any other integer status, 7 (ISOLATED) included, reads 'Error' |
| TorrentModel.UnknownStatusExactly | src/Models/Torrent.php:318-319 | 'Unknown' is reached exactly for a status of `''` or `[]`, which loosely equal null but not 0 |
| TorrentModel.QueuedExactly | src/Models/Torrent.php:229-272 | isQueued holds exactly for status 3 or 5, and isStopped, isChecking, isDownloading and isSeeding exactly for 0, 2, 4 and 6, by strict comparison |
| TorrentModel.StatusString | src/Models/Torrent.php:301-323 | the status string is one of the ten names, and 'Seeding complete' or 'Paused' exactly when the status loosely equals 0 |
| TorrentModel.IsDone | src/Models/Torrent.php:279-282 | isDone throws exactly when `leftUntilDone` is missing |
| TorrentModel.DoneExactly | src/Models/Torrent.php:279-282 | isDone holds exactly when leftUntilDone < 1; without that attribute the magic getter throws |
| TorrentModel.TotalDoneNeverCast | src/Models/Torrent.php:195-200 | `totalDone` is listed as bytes, which is never transformed |
| TorrentModel.TotalDoneIsUncastSum | src/Models/Torrent.php:195-200 | the total is haveValid + haveUnchecked read uncast, whatever castingEnabled says |
| TorrentModel.TotalDoneNeedsHaveValid | src/Models/Torrent.php:195-200 | without haveValid the getter throws |
| TorrentModel.SizeGettersNeedFields | src/Models/Torrent.php:195-200 | getHaveValid and getHaveUnchecked answer exactly when their field is present, and otherwise throw BadMethodCallException |
| TorrentModel.TotalDone | src/Models/Torrent.php:195-200 | a total means both sizes are present; with either missing the getter throws BadMethodCallException |
| TorrentModel.ErrorMessages | src/Models/Torrent.php:350-363 | errors 1, 2, 3 give 'Tracker returned a warning: ', 'Tracker returned an error: ', 'Error: ' followed by errorString; null or 0 give null |
| TorrentModel.OtherErrorIsNull | src/Models/Torrent.php:350-363 | any other error code gives null |
| TorrentModel.ErrorMessage | src/Models/Torrent.php:350-363 | anything but null means the error code loosely equals 1, 2 or 3, and a message given is a string |
| TorrentModel.RatioTable | src/Models/Torrent.php:333-343 | mode 0 or null asks the client, mode 1 answers the torrent's own limit, any other integer answers -1 |
| TorrentModel.RatioChoice | src/Models/Torrent.php:333-343 | the client is asked exactly when the mode loosely equals 0; an answer other than -1 means the mode loosely equals 1 |
| TorrentModel.SeedRatioLimit | src/Models/Torrent.php:333-343 | for mode 0 the client's seedRatioLimit is called with its full effect; otherwise the answer is returned and nothing is sent |

## Left out

- An operation's JSON body is `Php.Runtime.jsonEncode` of `{method, arguments}`; JSON encoding and decoding are library functions passed in.
- `Client::create`, `createWithHttpClient` and `instance` are static factories over HTTP discovery. They are not modelled.
- `getResponseHistory` and the `HistoryPlugin` only record responses. The History plugin is in the chain but forwards requests unchanged.
- `defaultUserAgent` is the constant `Rpc.UserAgent`.
- `env()` is a map of strings, so the environment's string-to-type conversions are not modelled.
- `Builder::send`, `getRequestBuilder`/`setRequestBuilder` and `src/HttpClient/RequestBuilder.php` are PSR-7 factory wiring. `HttpMethodsClient` is modelled only through `post`.
- The plugin chain runs synchronously. Promises and the `first` callback are not modelled.
- The basic-auth plugin sets `Authorization: Basic` over `Php.Runtime.base64Encode` of `username:password`. The plugin library's own encoding is not modelled further.
- `src/Formatter.php` and `src/Helper.php` are floating-point and date formatting. `Formatter::castAttribute` is the library function `Php.Runtime.formatterCast` for the eight types it handles. The model keeps only the fact that `bytes` falls through to the unchanged value.
- Torrent `getPercentDone`, `getPercentDoneString`, `getFileCount` and `getFile` are float arithmetic and Collection lookups. They are not modelled.
- `src/Laravel/ServiceProvider.php` and its config are framework wiring. That includes `enableTLS`, which would hit `Client::__call`.
- `Php.NumberOfString`: for a numeric string outside the integer range, or one with a fraction or an exponent, the float value is the library function `Php.Runtime.floatOf`.
- `Php.Add`: leading-numeric strings such as `'12abc'` are refused, not added with a warning. The torrent byte counts are integers.
- `Php.Add`: integer overflow goes to a float with the exact sum, not a rounded double.
- `Php.Add`: a sum involving a float operand is the exact sum of the two values as reals, not an IEEE double rounded to 53 bits.
- `Php.ToText`: floats print through the library function `Php.Runtime.floatToString`.
- `NetworkException.StatusText`: a code missing from the table reads as the empty text. PHP 8 reads null there, with an undefined-array-key warning, and formats it the same way.
- `TorrentModel.TotalDone`: the optional `$castingEnabled` is an `Option<bool>`. PHP's loose coercion of other values to that parameter is not modelled.
- `Models.MagicCall`: an argument that an array or object cannot coerce to the `bool` parameter is a TypeError. Other scalars coerce by truthiness.
- The code coerces `ids` to neither a list nor an integer; it is sent as build() leaves it.
- The code passes 'recently-active' to the daemon as a plain string, with no special handling.
- `api()` has no retry-depth limit, so neither has the model.
- `ParamBuilder.Transform`: an object without `toArray()` raises an Error in PHP. The model always takes `Php.Runtime.objectToArray` of the object, so it does not capture that error.

## Findings

| source | as written | input that shows it | evidently intended | confidence | as-written member | corrected member |
|---|---|---|---|---|---|---|
| src/Client.php:709-712 | `getHttpClient(): HttpMethodsClient` returns `Builder::getHttpClient()`, which answers the plugin client, not an `HttpMethodsClient` | any RPC call, e.g. `start()` on a fresh client: the return type check raises a TypeError before the request is sent | wrap the plugin client in an `HttpMethodsClient` so that `api()` can `post()` | not executed | TransmissionClient.Client.GetHttpClientAsWritten | TransmissionClient.Client.GetHttpClient |
