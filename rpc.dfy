/**
 * One `api()` call as a function of the plugin list and the transport's responses: post the
 * call, and on every 409 install the session id the daemon sent and post it again.
 */
module Rpc {
  import opened Wrappers
  import opened PhpStrings
  import opened Php
  import opened Http
  import opened Failures
  import opened ParamBuilder
  import opened ResponseMediator
  import opened ExceptionThrower
  import opened Plugins
  import opened HttpClientBuilder
  import opened Commands
  import opened Sequences

  const RpcPath: string := "/transmission/rpc"
  const Version: string := "1.1.0"
  const UserAgent: string := "PHP-Transmission-SDK/" + Version
  const NoSessionId: string := "Unable to retrieve X-Transmission-Session-Id"

  /** transmissionUrl(): `hostname . ':' . port . path`. */
  function TransmissionUrl(hostname: string, port: string, path: string): string {
    hostname + ":" + port + path
  }

  /** The JSON of `compact('method', 'arguments')`, the arguments sanitised by build(). */
  function RequestBody(rt: Runtime, call: Call): string {
    rt.jsonEncode(Arr([(StrKey("method"), Str(call.name)), (StrKey("arguments"), Arr(Build(rt, call.params)))]))
  }

  /**
   * HttpMethodsClient::post($uri, ['Content-Type' => 'application/json'], $body): each
   * header given is added to the new request.
   */
  function PostRequest(url: string, body: string): (r: Request)
    ensures r.verb == "POST" && r.uri == url && r.body == body
    ensures HeaderLine(r.headers, "Content-Type") == "application/json"
  {
    Request("POST", url, [Header("Content-Type", ["application/json"])], body)
  }

  /** setSessionId(): removePlugin(AuthSession::class), then addPlugin(new AuthSession($id)). */
  function WithSession(plugins: seq<Plugin>, sessionId: string): (r: seq<Plugin>)
    ensures |r| > 0 && r[|r| - 1] == AuthSessionPlugin(sessionId)
  {
    WithoutClass(plugins, AuthSessionClass) + [AuthSessionPlugin(sessionId)]
  }

  /**
   * After setSessionId() the chain holds one AuthSession, the new one, last, after the other
   * plugins in their old order.
   */
  lemma SessionReplaced(plugins: seq<Plugin>, sessionId: string)
    ensures var r := WithSession(plugins, sessionId);
      CountClass(r, AuthSessionClass) == 1 && Subsequence(r[..|r| - 1], plugins)
  {
    ReplaceLeavesOne(plugins, AuthSessionPlugin(sessionId));
  }

  /** setSessionId() leaves one AuthSession, and the number of plugins of every other class as it was. */
  lemma SessionKeepsOtherClasses(plugins: seq<Plugin>, sessionId: string, d: PluginClass)
    requires d != AuthSessionClass
    ensures CountClass(WithSession(plugins, sessionId), AuthSessionClass) == 1
    ensures CountClass(WithSession(plugins, sessionId), d) == CountClass(plugins, d)
  {
    var w := WithoutClass(plugins, AuthSessionClass);
    WithoutClassCounts(plugins, AuthSessionClass, d);
    CountClassAppend(w, [AuthSessionPlugin(sessionId)], d);
    CountClassAppend(w, [AuthSessionPlugin(sessionId)], AuthSessionClass);
    assert [AuthSessionPlugin(sessionId)][1..] == [];
  }

  /** authenticate(): the same remove-then-add, for the BasicAuth plugin. */
  function WithAuthentication(plugins: seq<Plugin>, username: string, password: string): (r: seq<Plugin>)
    ensures |r| > 0 && r[|r| - 1] == AuthenticationPlugin(username, password)
  {
    WithoutClass(plugins, AuthenticationClass) + [AuthenticationPlugin(username, password)]
  }

  /** After authenticate() the chain holds one BasicAuth plugin, the new one, last, after the others in their old order. */
  lemma AuthenticationReplaced(plugins: seq<Plugin>, username: string, password: string)
    ensures var r := WithAuthentication(plugins, username, password);
      CountClass(r, AuthenticationClass) == 1 && Subsequence(r[..|r| - 1], plugins)
  {
    ReplaceLeavesOne(plugins, AuthenticationPlugin(username, password));
  }

  /** How an api() call ends: its result, the requests the transports received, the final plugin list. */
  datatype Exchange = Exchange(result: Result<Value, Failure>, requests: seq<Request>, plugins: seq<Plugin>)

  function Tail<T>(s: seq<T>): seq<T> {
    if s == [] then [] else s[1..]
  }

  /** Whether a response is a 409 carrying a session id. */
  predicate IsSessionChallenge(resp: Response) {
    resp.status == 409 && !IsBlankString(SessionIdOf(resp))
  }

  /** findAndSetSessionId(): the X-Transmission-Session-Id line of the response. */
  function SessionIdOf(resp: Response): string {
    HeaderLine(resp.headers, "x-transmission-session-id")
  }

  /**
   * How a post that is not a session challenge ends the call: the chain's verdict first, then
   * api()'s test for a 409 (whose session id is then blank), else the decoded content.
   */
  function Settle(rt: Runtime, plugins: seq<Plugin>, resp: Response): Result<Value, Failure> {
    match Delivered(ChainResponse(rt, plugins, resp), resp)
    case Err(f) => Err(f)
    case Ok(r) => if IsConflictError(r) then Err(TransmissionException(Str(NoSessionId), 0)) else Ok(GetContent(rt, r))
  }

  /**
   * api($method, $params) when the first post goes to a transport holding `first` and every
   * later post to one holding `later` (the same transport, or another one after
   * setHttpClient replaced a transport a built client still uses). A 409 passes every chain
   * (ConflictPassesChain), so a session challenge is recognised before the chain's verdict,
   * which decides only the other replies (ChallengeContinues, AnswerReturnsContent,
   * RaisedFailureEndsCall and BlankSessionIdStops state each branch in api()'s own order).
   */
  function ConverseFrom(rt: Runtime, url: string, body: string, plugins: seq<Plugin>,
                        first: seq<Response>, later: seq<Response>): (e: Exchange)
    ensures first == [] ==> e.requests == []
    ensures first != [] ==> 1 <= |e.requests| <= 1 + |later|
    decreases |later|, |first|
  {
    var req := ThroughChain(rt, plugins, PostRequest(url, body));
    if first == [] then Exchange(Err(TransportFailure), [], plugins)
    else if IsSessionChallenge(first[0]) then
      var next := ConverseFrom(rt, url, body, WithSession(plugins, SessionIdOf(first[0])), later, Tail(later));
      Exchange(next.result, [req] + next.requests, next.plugins)
    else Exchange(Settle(rt, plugins, first[0]), [req], plugins)
  }

  /** api() against a single transport. */
  function Converse(rt: Runtime, url: string, body: string, plugins: seq<Plugin>, script: seq<Response>): Exchange {
    ConverseFrom(rt, url, body, plugins, script, Tail(script))
  }

  // ---------------------------------------------------------------- lemmas

  /**
   * The shape of an exchange: its first request is the call through the current chain; a
   * second one comes only after a session challenge, and then the rest is the same call with
   * the session installed; otherwise the plugin list is left as it was.
   */
  lemma ExchangeStep(rt: Runtime, url: string, body: string, plugins: seq<Plugin>,
                     first: seq<Response>, later: seq<Response>)
    ensures var e := ConverseFrom(rt, url, body, plugins, first, later);
      (first != [] ==> e.requests[0] == ThroughChain(rt, plugins, PostRequest(url, body)))
      && (!(first != [] && IsSessionChallenge(first[0])) ==> e.plugins == plugins && |e.requests| <= 1)
      && (first != [] && IsSessionChallenge(first[0]) ==>
            var next := ConverseFrom(rt, url, body, WithSession(plugins, SessionIdOf(first[0])),
                                     later, Tail(later));
            e == Exchange(next.result, [ThroughChain(rt, plugins, PostRequest(url, body))] + next.requests, next.plugins))
  {
    if first != [] && IsSessionChallenge(first[0]) {
      ChallengeContinues(rt, url, body, plugins, first, later);
    } else {
      UnchallengedEnds(rt, url, body, plugins, first, later);
    }
  }

  /**
   * A 409 that is not a session challenge always fails with 'Unable to retrieve
   * X-Transmission-Session-Id', whatever the chain; content comes back only from a reply
   * that is not a 409 and that the chain passes.
   */
  lemma SettleOutcome(rt: Runtime, plugins: seq<Plugin>, resp: Response)
    ensures var r := Settle(rt, plugins, resp);
      (resp.status == 409 ==> r == Err(TransmissionException(Str(NoSessionId), 0)))
      && (r.Ok? ==> resp.status != 409 && ChainResponse(rt, plugins, resp) == PassThrough && r.value == GetContent(rt, resp))
  {
    if resp.status == 409 {
      ConflictPassesChain(rt, plugins, resp);
    }
  }

  /** Without a session challenge first, the call ends after at most one post, the chain unchanged. */
  lemma UnchallengedEnds(rt: Runtime, url: string, body: string, plugins: seq<Plugin>,
                         first: seq<Response>, later: seq<Response>)
    requires !(first != [] && IsSessionChallenge(first[0]))
    ensures var e := ConverseFrom(rt, url, body, plugins, first, later);
      e.plugins == plugins
      && e.requests == (if first == [] then [] else [ThroughChain(rt, plugins, PostRequest(url, body))])
  {
  }

  /** A blank argument never reaches the wire: the body is the same with or without it. */
  lemma RequestBodyDropsBlank(rt: Runtime, name: string, k: Key, v: Value, params: seq<(Key, Value)>)
    requires Blank(rt, v)
    ensures RequestBody(rt, Call(name, [(k, v)] + params)) == RequestBody(rt, Call(name, params))
  {
    BuildCons(rt, k, v, params);
  }

  /** Every request of the list is a POST of `body` to `url`. */
  predicate AllPosts(requests: seq<Request>, url: string, body: string) {
    forall i | 0 <= i < |requests| :: requests[i].verb == "POST" && requests[i].uri == url && requests[i].body == body
  }

  lemma AllPostsCons(r: Request, requests: seq<Request>, url: string, body: string)
    requires r.verb == "POST" && r.uri == url && r.body == body
    requires AllPosts(requests, url, body)
    ensures AllPosts([r] + requests, url, body)
  {
    assert forall i | 1 <= i < |[r] + requests| :: ([r] + requests)[i] == requests[i - 1];
  }

  /** Every request of an exchange is a POST of the same body to the same URL. */
  lemma {:induction false} SameMessageEverySend(rt: Runtime, url: string, body: string, plugins: seq<Plugin>,
                                                first: seq<Response>, later: seq<Response>)
    ensures AllPosts(ConverseFrom(rt, url, body, plugins, first, later).requests, url, body)
    decreases |later|, |first|
  {
    if first != [] && IsSessionChallenge(first[0]) {
      var ps := WithSession(plugins, SessionIdOf(first[0]));
      SameMessageEverySend(rt, url, body, ps, later, Tail(later));
      AllPostsCons(ThroughChain(rt, plugins, PostRequest(url, body)), ConverseFrom(rt, url, body, ps, later, Tail(later)).requests, url, body);
    }
  }

  /** A post the transport cannot deliver ends the call with TransportFailure, having sent nothing. */
  lemma NothingDeliveredFails(rt: Runtime, url: string, body: string, plugins: seq<Plugin>, later: seq<Response>)
    ensures ConverseFrom(rt, url, body, plugins, [], later) == Exchange(Err(TransportFailure), [], plugins)
  {
  }

  /** A reply the chain passes that is not a 409 ends the call with its content, after one post. */
  lemma AnswerReturnsContent(rt: Runtime, url: string, body: string, plugins: seq<Plugin>,
                             first: seq<Response>, later: seq<Response>)
    requires first != [] && ChainResponse(rt, plugins, first[0]) == PassThrough && first[0].status != 409
    ensures ConverseFrom(rt, url, body, plugins, first, later)
         == Exchange(Ok(GetContent(rt, first[0])), [ThroughChain(rt, plugins, PostRequest(url, body))], plugins)
  {
  }

  /** A reply the chain raises on ends the call with that failure, after one post and no session change. */
  lemma RaisedFailureEndsCall(rt: Runtime, url: string, body: string, plugins: seq<Plugin>,
                              first: seq<Response>, later: seq<Response>, f: Failure)
    requires first != [] && ChainResponse(rt, plugins, first[0]) == Raise(f)
    ensures ConverseFrom(rt, url, body, plugins, first, later)
         == Exchange(Err(f), [ThroughChain(rt, plugins, PostRequest(url, body))], plugins)
  {
  }

  /** A 409 without a session id fails with 'Unable to retrieve X-Transmission-Session-Id': no resend, no session change. */
  lemma BlankSessionIdStops(rt: Runtime, url: string, body: string, plugins: seq<Plugin>,
                            first: seq<Response>, later: seq<Response>)
    requires first != [] && first[0].status == 409
    requires IsBlankString(SessionIdOf(first[0]))
    ensures ConverseFrom(rt, url, body, plugins, first, later)
         == Exchange(Err(TransmissionException(Str(NoSessionId), 0)), [ThroughChain(rt, plugins, PostRequest(url, body))], plugins)
  {
    ConflictPassesChain(rt, plugins, first[0]);
    assert !IsSessionChallenge(first[0]);
    assert Settle(rt, plugins, first[0]) == Err(TransmissionException(Str(NoSessionId), 0));
  }

  /**
   * A 409 with a session id: the rest of the call is the same call, with that id installed,
   * against the later responses.
   */
  lemma ChallengeContinues(rt: Runtime, url: string, body: string, plugins: seq<Plugin>,
                           first: seq<Response>, later: seq<Response>)
    requires first != [] && IsSessionChallenge(first[0])
    ensures var next := ConverseFrom(rt, url, body, WithSession(plugins, SessionIdOf(first[0])),
                                     later, Tail(later));
      ConverseFrom(rt, url, body, plugins, first, later)
      == Exchange(next.result, [ThroughChain(rt, plugins, PostRequest(url, body))] + next.requests, next.plugins)
  {
  }

  /**
   * A 409 with a session id is followed by the same call with that id installed, and the
   * next post carries it in X-Transmission-Session-Id.
   */
  lemma ConflictRetriesWithSession(rt: Runtime, url: string, body: string, plugins: seq<Plugin>, script: seq<Response>)
    requires |script| >= 2 && script[0].status == 409
    requires !IsBlankString(SessionIdOf(script[0]))
    ensures var sessionId := SessionIdOf(script[0]);
      var e := Converse(rt, url, body, plugins, script);
      var rest := Converse(rt, url, body, WithSession(plugins, sessionId), script[1..]);
      e.result == rest.result && e.plugins == rest.plugins
      && e.requests == [ThroughChain(rt, plugins, PostRequest(url, body))] + rest.requests
      && HeaderLine(e.requests[1].headers, SessionHeader) == sessionId
  {
    var sessionId := SessionIdOf(script[0]);
    assert IsSessionChallenge(script[0]) && Tail(script) == script[1..];
    ChallengeContinues(rt, url, body, plugins, script, script[1..]);
    RetryCarriesSession(rt, url, body, plugins, sessionId, script[1..]);
  }

  /** The first post after a session is installed carries that session id. */
  lemma RetryCarriesSession(rt: Runtime, url: string, body: string, plugins: seq<Plugin>, sessionId: string,
                            later: seq<Response>)
    requires !IsBlankString(sessionId) && later != []
    ensures var rest := Converse(rt, url, body, WithSession(plugins, sessionId), later);
      |rest.requests| >= 1 && HeaderLine(rest.requests[0].headers, SessionHeader) == sessionId
  {
    ExchangeStep(rt, url, body, WithSession(plugins, sessionId), later, Tail(later));
    LastSessionWins(rt, WithoutClass(plugins, AuthSessionClass), sessionId, PostRequest(url, body));
  }

  /** A 409 passes every chain. */
  lemma ConflictPassesChain(rt: Runtime, plugins: seq<Plugin>, resp: Response)
    requires resp.status == 409
    ensures ChainResponse(rt, plugins, resp) == PassThrough
  {
    if ExceptionThrowerPlugin in plugins {
      ConflictPasses(rt, resp);
    }
  }

  /**
   * There is no retry bound: a daemon that answers every post with a new session challenge
   * is asked again until the transport runs out, one post per response.
   */
  lemma {:induction false} NoRetryBound(rt: Runtime, url: string, body: string, plugins: seq<Plugin>,
                                        first: seq<Response>, later: seq<Response>)
    requires forall i | 0 <= i < |first| :: IsSessionChallenge(first[i])
    requires forall i | 0 <= i < |later| :: IsSessionChallenge(later[i])
    requires first != [] ==> later == first[1..]
    ensures var e := ConverseFrom(rt, url, body, plugins, first, later);
      e.result == Err(TransportFailure) && |e.requests| == |first|
    decreases |later|, |first|
  {
    if first != [] {
      ConflictPassesChain(rt, plugins, first[0]);
      var sessionId := SessionIdOf(first[0]);
      NoRetryBound(rt, url, body, WithSession(plugins, sessionId), later, Tail(later));
    }
  }

  /**
   * After a call that met a session challenge the chain holds exactly one AuthSession, the
   * last plugin; otherwise the chain is as it was. Every other class keeps its count.
   */
  lemma {:induction false} NegotiatedChainHasOneSession(rt: Runtime, url: string, body: string, plugins: seq<Plugin>,
                                                        first: seq<Response>, later: seq<Response>, d: PluginClass)
    requires d != AuthSessionClass
    ensures var e := ConverseFrom(rt, url, body, plugins, first, later);
      CountClass(e.plugins, d) == CountClass(plugins, d)
      && (!(first != [] && IsSessionChallenge(first[0])) ==> e.plugins == plugins)
      && (first != [] && IsSessionChallenge(first[0]) ==>
            CountClass(e.plugins, AuthSessionClass) == 1 && e.plugins[|e.plugins| - 1].AuthSessionPlugin?)
    decreases |later|, |first|
  {
    if !(first != [] && IsSessionChallenge(first[0])) {
      UnchallengedEnds(rt, url, body, plugins, first, later);
    } else {
      ChallengeContinues(rt, url, body, plugins, first, later);
      var sessionId := SessionIdOf(first[0]);
      var ps := WithSession(plugins, sessionId);
      SessionKeepsOtherClasses(plugins, sessionId, d);
      NegotiatedChainHasOneSession(rt, url, body, ps, later, Tail(later), d);
    }
  }
}
