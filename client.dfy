/**
 * Transmission\Client: the wrapper methods, each one RPC call through api(); api() itself,
 * which posts through the builder's plugin client and negotiates the session on a 409; and
 * the plugins the constructor installs.
 */
module TransmissionClient {
  import opened Wrappers
  import opened PhpStrings
  import opened Php
  import opened Http
  import opened Failures
  import opened ResponseMediator
  import opened Plugins
  import opened HttpClientBuilder
  import opened Commands
  import opened Rpc
  import opened Sequences

  /**
   * Http\Client\Common\HttpMethodsClient over a plugin client: `post` builds the request
   * from the URI, the headers and the body, and sends it.
   */
  datatype HttpMethodsClient = HttpMethodsClient(client: PluginClient) {
    method Post(rt: Runtime, uri: string, headers: Headers, body: string) returns (out: Result<Response, Failure>)
      modifies client.transport
      ensures var t := client.transport; var sent := ThroughChain(rt, client.plugins, Request("POST", uri, headers, body));
        (old(t.script) == [] ==> out == Err(TransportFailure) && t.script == old(t.script) && t.sent == old(t.sent))
        && (old(t.script) != [] ==>
          t.script == old(t.script)[1..] && t.sent == old(t.sent) + [sent]
          && out == Delivered(ChainResponse(rt, client.plugins, old(t.script)[0]), old(t.script)[0]))
    {
      out := client.SendRequest(rt, Request("POST", uri, headers, body));
    }
  }

  const DefaultHostname: string := "127.0.0.1"
  const DefaultPort: int := 9091

  /** The plugins the constructor appends, in order, before any authentication. */
  function BasePlugins(): seq<Plugin> {
    [ExceptionThrowerPlugin, HistoryPlugin, HeaderDefaultsPlugin([("User-Agent", UserAgent)])]
  }

  /** The builder's plugin list once the constructor is done with it. */
  function InitialPlugins(existing: seq<Plugin>, username: Option<string>, password: string): seq<Plugin> {
    var base := existing + BasePlugins();
    if username.Some? && !IsBlankString(username.value) then WithAuthentication(base, username.value, password) else base
  }

  /** The exception __call throws for a method the client does not define. */
  function UndefinedMethod(name: string): (f: Failure)
    ensures f.BadMethodCallException?
  {
    BadMethodCallException("Method Transmission\\Client::" + name + " does not exist.")
  }

  /** The plugins the constructor appends include no authentication plugin. */
  lemma BaseHasNoAuthentication(existing: seq<Plugin>)
    requires !HasClass(existing, AuthenticationClass)
    ensures !HasClass(existing + BasePlugins(), AuthenticationClass)
  {
    forall p | p in existing + BasePlugins()
      ensures ClassOf(p) != AuthenticationClass
    {
      if p !in existing {
        assert p in BasePlugins();
      }
    }
  }

  /**
   * On a builder with no authentication plugin, the constructor leaves one exactly when the
   * username is filled; otherwise it only appends its three plugins.
   */
  lemma AuthenticatesOnlyWhenFilled(existing: seq<Plugin>, username: Option<string>, password: string)
    requires !HasClass(existing, AuthenticationClass)
    ensures var ps := InitialPlugins(existing, username, password);
      HasClass(ps, AuthenticationClass) <==> username.Some? && !IsBlankString(username.value)
    ensures !(username.Some? && !IsBlankString(username.value)) ==> InitialPlugins(existing, username, password) == existing + BasePlugins()
    ensures username.Some? && !IsBlankString(username.value) ==>
      InitialPlugins(existing, username, password) == existing + BasePlugins() + [AuthenticationPlugin(username.value, password)]
  {
    BaseHasNoAuthentication(existing);
    if username.Some? && !IsBlankString(username.value) {
      WithoutAbsentClass(existing + BasePlugins(), AuthenticationClass);
      var ps := InitialPlugins(existing, username, password);
      assert ps[|ps| - 1] == AuthenticationPlugin(username.value, password);
      assert ClassOf(ps[|ps| - 1]) == AuthenticationClass;
    }
  }

  /** Different method names give different messages: __call names the method it refuses. */
  lemma UndefinedMethodNamesIt(a: string, b: string)
    requires UndefinedMethod(a) == UndefinedMethod(b)
    ensures a == b
  {
    var head, tail := "Method Transmission\\Client::", " does not exist.";
    assert (head + a + tail)[|head|..|head| + |a|] == a;
    assert (head + b + tail)[|head|..|head| + |b|] == b;
  }

  /**
   * What a call can observe of the transports: `t`, the one its first post goes to (the
   * built client's), and `h`, the builder's current one, each with the responses it still
   * holds and the requests it has been sent. They are one object unless setHttpClient
   * replaced the transport after the client was built.
   */
  datatype Snapshot = Snapshot(t: Transport, h: Transport,
                               tScript: seq<Response>, tSent: seq<Request>, hScript: seq<Response>, hSent: seq<Request>)
  {
    /** A snapshot of a single transport shows the same contents twice. */
    predicate Coherent() {
      t == h ==> tScript == hScript && tSent == hSent
    }
  }

  function Drop<T>(s: seq<T>, n: int): seq<T> {
    if 0 <= n <= |s| then s[n..] else []
  }

  /** Whether the first post against this script meets a session challenge. */
  predicate Challenge(script: seq<Response>) {
    script != [] && IsSessionChallenge(script[0])
  }

  /**
   * The snapshot after the exchange `e` from `s`: the first request went to `t` and the later
   * ones to `h`, each taking one response; after a challenge the rebuilt client posts to `h`.
   */
  function SnapAfter(e: Exchange, s: Snapshot): Snapshot {
    var n := |e.requests|;
    if s.t == s.h then
      Snapshot(s.h, s.h, Drop(s.hScript, n), s.hSent + e.requests, Drop(s.hScript, n), s.hSent + e.requests)
    else if n == 0 then s
    else
      var hScript, hSent := Drop(s.hScript, n - 1), s.hSent + e.requests[1..];
      if Challenge(s.tScript) then Snapshot(s.h, s.h, hScript, hSent, hScript, hSent)
      else Snapshot(s.t, s.h, Drop(s.tScript, 1), s.tSent + [e.requests[0]], hScript, hSent)
  }

  /** A transport other than the builder's took exactly the first request, if there was one. */
  ghost predicate StaleTook(e: Exchange, s: Snapshot)
    reads s.t
  {
    s.t != s.h && e.requests != [] ==> s.t.script == Drop(s.tScript, 1) && s.t.sent == s.tSent + [e.requests[0]]
  }

  /** A call that sent nothing leaves the snapshot as it was. */
  lemma SnapAfterNothing(e: Exchange, s: Snapshot)
    requires e.requests == [] && s.Coherent()
    ensures SnapAfter(e, s) == s
  {
    assert s.hSent + [] == s.hSent;
  }

  /** A call that ended after its first post moved one response and one request. */
  lemma SnapAfterOnce(e: Exchange, s: Snapshot, req: Request)
    requires e.requests == [req] && s.tScript != [] && !Challenge(s.tScript) && s.Coherent()
    ensures var same := s.t == s.h;
      SnapAfter(e, s) == Snapshot(s.t, s.h, s.tScript[1..], s.tSent + [req],
                                  if same then s.tScript[1..] else s.hScript, if same then s.tSent + [req] else s.hSent)
  {
    if s.t != s.h {
      assert [req][1..] == [] && s.hSent + [] == s.hSent;
    }
  }

  /**
   * A challenged first post to `t`, then the rest of the call against `h` alone: the whole
   * call moves what the first post and the rest move in turn.
   */
  lemma SnapAfterRetry(e: Exchange, next: Exchange, s: Snapshot, req: Request)
    requires e.requests == [req] + next.requests && Challenge(s.tScript) && s.Coherent()
    ensures var mid := if s.t == s.h then s.tScript[1..] else s.hScript;
      var midSent := if s.t == s.h then s.tSent + [req] else s.hSent;
      SnapAfter(e, s) == SnapAfter(next, Snapshot(s.h, s.h, mid, midSent, mid, midSent))
  {
    var m := |next.requests|;
    if s.t == s.h {
      if 1 + m <= |s.tScript| {
        DropDrop(s.tScript, 1, m);
      }
      AppendAssociative(s.tSent, [req], next.requests);
    } else {
      assert ([req] + next.requests)[1..] == next.requests;
    }
  }

  /** Every exchange leaves the builder's transport where it was. */
  lemma SnapAfterKeepsHost(e: Exchange, s: Snapshot)
    ensures SnapAfter(e, s).h == s.h
    ensures SnapAfter(e, s).t == s.t || SnapAfter(e, s).t == s.h
  {
  }

  /** What add() hands back: the torrents get() fetched for a duplicate, or the added torrent's fields. */
  datatype AddResult = Fetched(torrents: Torrents) | AddedFields(items: seq<(Key, Value)>)

  function AsAddResult(res: Result<Torrents, Failure>): (r: Result<AddResult, Failure>)
    ensures r.Ok? <==> res.Ok?
  {
    match res
    case Ok(ts) => Ok(Fetched(ts))
    case Err(f) => Err(f)
  }

  /** The `$path` freeSpace() starts from: the string it was given, or null. */
  function GivenPath(path: Option<string>): (v: Value)
    ensures path.None? ==> v == Null
  {
    if path.Some? then Str(path.value) else Null
  }

  const HttpMethodsClientRefused: string :=
    "Client::getHttpClient(): Return value must be of type Http\\Client\\Common\\HttpMethodsClient, Http\\Client\\Common\\PluginClient returned"

  class Client {
    const rt: Runtime
    const hostname: string
    const port: string
    const path: string
    const builder: Builder

    /** transmissionUrl(). */
    function Url(): (url: string) {
      TransmissionUrl(hostname, port, path)
    }

    /** What the current state shows a call. */
    ghost function Snap(): (s: Snapshot)
      reads builder, builder.Transports()
      requires builder.Valid()
      ensures s.Coherent()
    {
      var t := builder.NextTransport();
      Snapshot(t, builder.httpClient, t.script, t.sent, builder.httpClient.script, builder.httpClient.sent)
    }

    /**
     * What api($call) does from a snapshot with this plugin list: the first post meets what
     * `t` holds, a later one what `h` holds once `t` has answered, when they are one transport.
     */
    function PredictFrom(s: Snapshot, plugins: seq<Plugin>, call: Call): Exchange {
      ConverseFrom(rt, Url(), RequestBody(rt, call), plugins, s.tScript, if s.t == s.h then Tail(s.hScript) else s.hScript)
    }

    /** What api($call) does from the current state. */
    ghost function Predict(call: Call): Exchange
      reads builder, builder.Transports()
      requires builder.Valid()
    {
      PredictFrom(Snap(), builder.plugins, call)
    }

    /** The state api() leaves after the exchange `e` from the snapshot `s`. */
    ghost predicate Settled(e: Exchange, s: Snapshot)
      reads builder, builder.Transports(), s.t
    {
      builder.Valid() && !builder.httpClientModified && builder.plugins == e.plugins
      && Snap() == SnapAfter(e, s) && StaleTook(e, s)
    }

    /**
     * The state two api() calls in turn leave: `e1` from `s0`, then `e2` from where `e1`
     * left off; a transport the second call no longer reaches keeps what the first left.
     */
    ghost predicate SettledAfter(e1: Exchange, s0: Snapshot, e2: Exchange)
      reads builder, builder.Transports(), s0.t, SnapAfter(e1, s0).t
    {
      var s1 := SnapAfter(e1, s0);
      Settled(e2, s1) && (s1.t != s0.t ==> StaleTook(e1, s0))
    }

    constructor(rt: Runtime, env: map<string, string>, hostname: Option<string>, port: Option<int>,
                username: Option<string>, password: Option<string>, builder: Builder)
      requires builder.Valid()
      modifies builder
      ensures this.rt == rt && this.builder == builder && path == RpcPath
      ensures this.hostname == hostname.GetOr(if "TRANSMISSION_HOSTNAME" in env then env["TRANSMISSION_HOSTNAME"] else DefaultHostname)
      ensures this.port == (if port.Some? then IntToString(port.value)
                            else if "TRANSMISSION_PORT" in env then env["TRANSMISSION_PORT"] else IntToString(DefaultPort))
      ensures var user := if username.Some? then username
                          else if "TRANSMISSION_USERNAME" in env then Some(env["TRANSMISSION_USERNAME"]) else None;
        var pass := password.GetOr(if "TRANSMISSION_PASSWORD" in env then env["TRANSMISSION_PASSWORD"] else "");
        builder.plugins == InitialPlugins(old(builder.plugins), user, pass)
      ensures builder.httpClientModified && builder.httpClient == old(builder.httpClient)
      ensures builder.pluginClient == old(builder.pluginClient)
    {
      this.rt := rt;
      this.hostname := hostname.GetOr(if "TRANSMISSION_HOSTNAME" in env then env["TRANSMISSION_HOSTNAME"] else DefaultHostname);
      this.port := if port.Some? then IntToString(port.value)
                   else if "TRANSMISSION_PORT" in env then env["TRANSMISSION_PORT"] else IntToString(DefaultPort);
      path := RpcPath;
      this.builder := builder;
      new;
      builder.AddPlugin(ExceptionThrowerPlugin);
      builder.AddPlugin(HistoryPlugin);
      builder.AddPlugin(HeaderDefaultsPlugin([("User-Agent", UserAgent)]));
      assert builder.plugins == old(builder.plugins) + BasePlugins();
      var user := if username.Some? then username
                  else if "TRANSMISSION_USERNAME" in env then Some(env["TRANSMISSION_USERNAME"]) else None;
      var pass := password.GetOr(if "TRANSMISSION_PASSWORD" in env then env["TRANSMISSION_PASSWORD"] else "");
      if user.Some? && !IsBlankString(user.value) {
        Authenticate(user.value, pass);
      }
    }

    /** Replaces any authentication plugin with BasicAuth for these credentials. */
    method Authenticate(username: string, password: string)
      requires builder.Valid()
      modifies builder
      ensures builder.Valid()
      ensures builder.plugins == WithAuthentication(old(builder.plugins), username, password)
      ensures builder.httpClientModified && builder.httpClient == old(builder.httpClient)
      ensures builder.pluginClient == old(builder.pluginClient)
    {
      builder.RemovePlugin(AuthenticationClass);
      builder.AddPlugin(AuthenticationPlugin(username, password));
    }

    /** Replaces any AuthSession plugin with one holding this session id. */
    method SetSessionId(sessionId: string)
      requires builder.Valid()
      modifies builder
      ensures builder.Valid()
      ensures builder.plugins == WithSession(old(builder.plugins), sessionId)
      ensures builder.httpClientModified && builder.httpClient == old(builder.httpClient)
      ensures builder.pluginClient == old(builder.pluginClient)
    {
      builder.RemovePlugin(AuthSessionClass);
      builder.AddPlugin(AuthSessionPlugin(sessionId));
    }

    /** Installs the session id a 409 carries, or fails when it carries none. */
    method FindAndSetSessionId(response: Response) returns (r: Result<(), Failure>)
      requires builder.Valid()
      modifies builder
      ensures var sessionId := HeaderLine(response.headers, "x-transmission-session-id");
        (IsBlankString(sessionId) ==>
           r == Err(TransmissionException(Str(NoSessionId), 0))
           && builder.plugins == old(builder.plugins) && builder.httpClientModified == old(builder.httpClientModified))
        && (!IsBlankString(sessionId) ==>
           r == Ok(()) && builder.plugins == WithSession(old(builder.plugins), sessionId) && builder.httpClientModified)
      ensures builder.httpClient == old(builder.httpClient) && builder.pluginClient == old(builder.pluginClient)
    {
      var sessionId := HeaderLine(response.headers, "x-transmission-session-id");
      if IsBlankString(sessionId) {
        r := Err(TransmissionException(Str(NoSessionId), 0));
      } else {
        SetSessionId(sessionId);
        r := Ok(());
      }
    }

    /**
     * getHttpClient() with the plugin client wrapped in the HttpMethodsClient its declared
     * return type names.
     */
    method GetHttpClient() returns (c: HttpMethodsClient)
      requires builder.Valid()
      modifies builder
      ensures builder.Valid() && !builder.httpClientModified && builder.pluginClient == Some(c.client)
      ensures c.client.plugins == builder.plugins && c.client.transport == old(builder.NextTransport())
      ensures builder.plugins == old(builder.plugins) && builder.httpClient == old(builder.httpClient)
    {
      var pc := builder.GetHttpClient();
      c := HttpMethodsClient(pc);
    }

    /**
     * getHttpClient() as written: the builder hands back its plugin client, which is not an
     * HttpMethodsClient, so the return type check throws after the client was built.
     */
    method GetHttpClientAsWritten() returns (r: Result<HttpMethodsClient, Failure>)
      requires builder.Valid()
      modifies builder
      ensures r == Err(Engine(TypeError(HttpMethodsClientRefused)))
      ensures builder.Valid() && !builder.httpClientModified
      ensures builder.plugins == old(builder.plugins) && builder.httpClient == old(builder.httpClient)
    {
      var pc := builder.GetHttpClient();
      r := Err(Engine(TypeError(HttpMethodsClientRefused)));
    }

    /** api() over getHttpClient() as written: every call fails before anything is sent. */
    method ApiAsWritten(call: Call) returns (r: Result<Value, Failure>)
      requires builder.Valid()
      modifies builder
      ensures r == Err(Engine(TypeError(HttpMethodsClientRefused)))
      ensures builder.plugins == old(builder.plugins) && builder.httpClient == old(builder.httpClient)
    {
      // The TypeError propagates out of api() before post() is reached.
      var c := GetHttpClientAsWritten();
      r := Err(c.error);
    }

    /** The post api() makes: through getHttpClient() to the transport the client is built over. */
    method PostOnce(call: Call) returns (response: Result<Response, Failure>)
      requires builder.Valid()
      modifies builder, builder.NextTransport()
      ensures builder.Valid() && !builder.httpClientModified && builder.NextTransport() == old(builder.NextTransport())
      ensures builder.plugins == old(builder.plugins) && builder.httpClient == old(builder.httpClient)
      ensures var t := old(builder.NextTransport()); var sent := ThroughChain(rt, builder.plugins, PostRequest(Url(), RequestBody(rt, call)));
        (old(t.script) == [] ==> response == Err(TransportFailure) && t.script == old(t.script) && t.sent == old(t.sent))
        && (old(t.script) != [] ==>
          t.script == old(t.script)[1..] && t.sent == old(t.sent) + [sent]
          && response == Delivered(ChainResponse(rt, builder.plugins, old(t.script)[0]), old(t.script)[0]))
    {
      var http := GetHttpClient();
      response := http.Post(rt, Url(), [Header("Content-Type", ["application/json"])], RequestBody(rt, call));
    }

    /**
     * api($method, $params): post the sanitised call as JSON; on a 409 install the session
     * id and call again; otherwise answer the decoded content.
     */
    method Api(call: Call) returns (r: Result<Value, Failure>)
      requires builder.Valid()
      modifies builder, builder.httpClient, builder.NextTransport()
      ensures r == old(Predict(call)).result
      ensures Settled(old(Predict(call)), old(Snap()))
      decreases builder.Budget(), 0
    {
      ghost var s := Snap();
      ghost var t, h, first, ps := s.t, s.h, s.tScript, builder.plugins;
      ghost var later := if t == h then Tail(first) else s.hScript;
      ghost var url, body := Url(), RequestBody(rt, call);
      ghost var req := ThroughChain(rt, ps, PostRequest(url, body));
      ghost var e := Predict(call);
      if first != [] && first[0].status == 409 {
        ConflictPassesChain(rt, ps, first[0]);
      }
      var response := PostOnce(call);
      match response
      case Err(f) =>
        if first == [] {
          NothingDeliveredFails(rt, url, body, ps, later);
          SnapAfterNothing(e, s);
        } else {
          RaisedFailureEndsCall(rt, url, body, ps, first, later, f);
          SnapAfterOnce(e, s, req);
        }
        r := Err(f);
      case Ok(resp) =>
        if IsConflictError(resp) {
          r := Renegotiate(call, resp, e, s, req);
        } else {
          AnswerReturnsContent(rt, url, body, ps, first, later);
          SnapAfterOnce(e, s, req);
          r := Ok(GetContent(rt, resp));
        }
    }

    /**
     * The rest of api() once its first post, from the snapshot `s`, met the 409 `resp`: find
     * and install the session id, then call again through the rebuilt client.
     */
    method Renegotiate(call: Call, resp: Response, ghost e: Exchange, ghost s: Snapshot, ghost req: Request)
      returns (r: Result<Value, Failure>)
      requires builder.Valid() && !builder.httpClientModified
      requires s.Coherent() && s.tScript != [] && resp == s.tScript[0] && resp.status == 409
      requires e == PredictFrom(s, builder.plugins, call)
      requires req == ThroughChain(rt, builder.plugins, PostRequest(Url(), RequestBody(rt, call)))
      requires Snap() == Snapshot(s.t, s.h, s.tScript[1..], s.tSent + [req],
                                  if s.t == s.h then s.tScript[1..] else s.hScript,
                                  if s.t == s.h then s.tSent + [req] else s.hSent)
      modifies builder, builder.httpClient, builder.NextTransport()
      ensures r == e.result && Settled(e, s)
      decreases builder.Budget(), 1
    {
      ghost var t, h, first, ps := s.t, s.h, s.tScript, builder.plugins;
      ghost var later := if t == h then Tail(first) else s.hScript;
      ghost var url, body := Url(), RequestBody(rt, call);
      ghost var posted, budget := Snap(), builder.Budget();
      var found := FindAndSetSessionId(resp);
      match found
      case Err(f) =>
        assert Snap() == posted;
        BlankSessionIdStops(rt, url, body, ps, first, later);
        SnapAfterOnce(e, s, req);
        r := Err(f);
      case Ok(_) =>
        ChallengeContinues(rt, url, body, ps, first, later);
        ghost var sessionPlugins := WithSession(ps, SessionIdOf(resp));
        assert builder.plugins == sessionPlugins;
        assert Snap() == Snapshot(h, h, later, posted.hSent, later, posted.hSent);
        ghost var next := Predict(call);
        assert next == ConverseFrom(rt, url, body, sessionPlugins, later, Tail(later));
        assert e == Exchange(next.result, [req] + next.requests, next.plugins);
        assert t != h ==> t.script == Drop(first, 1) && t.sent == s.tSent + [req];
        assert builder.Budget() == budget;
        r := Api(call);
        assert t != h ==> t.script == Drop(first, 1) && t.sent == s.tSent + [req];
        SnapAfterRetry(e, next, s, req);
    }

    /** start, startNow, stop, verify, reannounce and the queue moves: post the action on `$ids`, answer true. */
    method Perform(a: Action, ids: Value) returns (r: Result<bool, Failure>)
      requires builder.Valid()
      modifies builder, builder.httpClient, builder.NextTransport()
      ensures r == Succeeded(old(Predict(ActionCall(a, ids))).result)
      ensures Settled(old(Predict(ActionCall(a, ids))), old(Snap()))
    {
      var res := Api(ActionCall(a, ids));
      r := Succeeded(res);
    }

    /** set($ids, $arguments): the arguments with `ids` overwritten, answer true. */
    method Set(ids: Value, arguments: seq<(Key, Value)>) returns (r: Result<bool, Failure>)
      requires builder.Valid()
      modifies builder, builder.httpClient, builder.NextTransport()
      ensures r == Succeeded(old(Predict(SetCall(ids, arguments))).result)
      ensures Settled(old(Predict(SetCall(ids, arguments))), old(Snap()))
    {
      var res := Api(SetCall(ids, arguments));
      r := Succeeded(res);
    }

    /** get($ids, $fields): no torrents, one Torrent, or a collection of them. */
    method Get(ids: Value, fields: Option<seq<string>>) returns (r: Result<Torrents, Failure>)
      requires builder.Valid()
      modifies builder, builder.httpClient, builder.NextTransport()
      ensures r == GetReply(rt, old(Predict(GetCall(ids, fields))).result)
      ensures Settled(old(Predict(GetCall(ids, fields))), old(Snap()))
    {
      var res := Api(GetCall(ids, fields));
      r := GetReply(rt, res);
    }

    /** getAll($fields): get() on every torrent. */
    method GetAll(fields: Option<seq<string>>) returns (r: Result<Torrents, Failure>)
      requires builder.Valid()
      modifies builder, builder.httpClient, builder.NextTransport()
      ensures r == GetReply(rt, old(Predict(GetCall(Null, fields))).result)
      ensures Settled(old(Predict(GetCall(Null, fields))), old(Snap()))
    {
      r := Get(Null, fields);
    }

    /**
     * add(): post the torrent; a duplicate is fetched by get() on its id, a reply without
     * 'torrent-added' throws, otherwise the added torrent's fields are answered.
     */
    method Add(torrent: string, metainfo: bool, savepath: Option<string>, arguments: seq<(Key, Value)>)
      returns (r: Result<AddResult, Failure>)
      requires builder.Valid()
      modifies builder, builder.httpClient, builder.NextTransport()
      ensures var s0, e1 := old(Snap()), old(Predict(AddCall(rt, torrent, metainfo, savepath, arguments)));
        match AddOutcome(rt, e1.result)
        case Err(f) => r == Err(f) && Settled(e1, s0)
        case Ok(Added(items)) => r == Ok(AddedFields(items)) && Settled(e1, s0)
        case Ok(Duplicate(id)) =>
          var e2 := PredictFrom(SnapAfter(e1, s0), e1.plugins, GetCall(id, None));
          r == AsAddResult(GetReply(rt, e2.result)) && SettledAfter(e1, s0, e2)
    {
      ghost var s0, e1 := Snap(), Predict(AddCall(rt, torrent, metainfo, savepath, arguments));
      var res := Api(AddCall(rt, torrent, metainfo, savepath, arguments));
      var outcome := AddOutcome(rt, res);
      if outcome.Err? {
        r := Err(outcome.error);
      } else if outcome.value.Added? {
        r := Ok(AddedFields(outcome.value.items));
      } else {
        SnapAfterKeepsHost(e1, s0);
        r := FetchDuplicate(outcome.value.id, e1, s0);
      }
    }

    /** add() on a 'torrent-duplicate' reply `e1` from `s0`: get() the duplicate by its id. */
    method FetchDuplicate(id: Value, ghost e1: Exchange, ghost s0: Snapshot) returns (r: Result<AddResult, Failure>)
      requires Settled(e1, s0)
      modifies builder, builder.httpClient, builder.NextTransport()
      ensures var e2 := PredictFrom(SnapAfter(e1, s0), e1.plugins, GetCall(id, None));
        r == AsAddResult(GetReply(rt, e2.result)) && SettledAfter(e1, s0, e2)
    {
      ghost var s1 := Snap();
      SnapAfterKeepsHost(e1, s0);
      ghost var e2 := Predict(GetCall(id, None));
      assert e2 == PredictFrom(s1, e1.plugins, GetCall(id, None));
      var fetched := Get(id, None);
      assert Settled(e2, s1);
      r := AsAddResult(fetched);
    }

    /** remove($ids, $deleteLocalData): answer true. */
    method Remove(ids: Value, deleteLocalData: bool) returns (r: Result<bool, Failure>)
      requires builder.Valid()
      modifies builder, builder.httpClient, builder.NextTransport()
      ensures r == Succeeded(old(Predict(RemoveCall(ids, deleteLocalData))).result)
      ensures Settled(old(Predict(RemoveCall(ids, deleteLocalData))), old(Snap()))
    {
      var res := Api(RemoveCall(ids, deleteLocalData));
      r := Succeeded(res);
    }

    /** move($ids, $location, $move): answer true. */
    method Move(ids: Value, location: string, move: bool) returns (r: Result<bool, Failure>)
      requires builder.Valid()
      modifies builder, builder.httpClient, builder.NextTransport()
      ensures r == Succeeded(old(Predict(MoveCall(ids, location, move))).result)
      ensures Settled(old(Predict(MoveCall(ids, location, move))), old(Snap()))
    {
      var res := Api(MoveCall(ids, location, move));
      r := Succeeded(res);
    }

    /** rename($ids, $path, $name): the reply, which must be an array. */
    method Rename(ids: Value, path: string, name: string) returns (r: Result<Value, Failure>)
      requires builder.Valid()
      modifies builder, builder.httpClient, builder.NextTransport()
      ensures r == ArrayTyped(old(Predict(RenameCall(ids, path, name))).result)
      ensures Settled(old(Predict(RenameCall(ids, path, name))), old(Snap()))
    {
      var res := Api(RenameCall(ids, path, name));
      r := ArrayTyped(res);
    }

    /** setSettings($arguments): answer true. */
    method SetSettings(arguments: seq<(Key, Value)>) returns (r: Result<bool, Failure>)
      requires builder.Valid()
      modifies builder, builder.httpClient, builder.NextTransport()
      ensures r == Succeeded(old(Predict(SetSettingsCall(arguments))).result)
      ensures Settled(old(Predict(SetSettingsCall(arguments))), old(Snap()))
    {
      var res := Api(SetSettingsCall(arguments));
      r := Succeeded(res);
    }

    /** getSettings($fields): the reply, which must be an array. */
    method GetSettings(fields: Option<seq<string>>) returns (r: Result<Value, Failure>)
      requires builder.Valid()
      modifies builder, builder.httpClient, builder.NextTransport()
      ensures r == ArrayTyped(old(Predict(GetSettingsCall(fields))).result)
      ensures Settled(old(Predict(GetSettingsCall(fields))), old(Snap()))
    {
      var res := Api(GetSettingsCall(fields));
      r := ArrayTyped(res);
    }

    /** sessionStats(): the reply, which must be an array. */
    method SessionStats() returns (r: Result<Value, Failure>)
      requires builder.Valid()
      modifies builder, builder.httpClient, builder.NextTransport()
      ensures r == ArrayTyped(old(Predict(PlainCall("session-stats"))).result)
      ensures Settled(old(Predict(PlainCall("session-stats"))), old(Snap()))
    {
      var res := Api(PlainCall("session-stats"));
      r := ArrayTyped(res);
    }

    /** updateBlocklist(): the reply, which must be an array. */
    method UpdateBlocklist() returns (r: Result<Value, Failure>)
      requires builder.Valid()
      modifies builder, builder.httpClient, builder.NextTransport()
      ensures r == ArrayTyped(old(Predict(PlainCall("blocklist-update"))).result)
      ensures Settled(old(Predict(PlainCall("blocklist-update"))), old(Snap()))
    {
      var res := Api(PlainCall("blocklist-update"));
      r := ArrayTyped(res);
    }

    /** portTest(): `['arguments']['port-is-open']` as a bool. */
    method PortTest() returns (r: Result<bool, Failure>)
      requires builder.Valid()
      modifies builder, builder.httpClient, builder.NextTransport()
      ensures r == PortTestReply(rt, old(Predict(PlainCall("port-test"))).result)
      ensures Settled(old(Predict(PlainCall("port-test"))), old(Snap()))
    {
      var res := Api(PlainCall("port-test"));
      r := PortTestReply(rt, res);
    }

    /** close(): answer true. */
    method Close() returns (r: Result<bool, Failure>)
      requires builder.Valid()
      modifies builder, builder.httpClient, builder.NextTransport()
      ensures r == Succeeded(old(Predict(PlainCall("session-close"))).result)
      ensures Settled(old(Predict(PlainCall("session-close"))), old(Snap()))
    {
      var res := Api(PlainCall("session-close"));
      r := Succeeded(res);
    }

    /**
     * freeSpace($path): a blank path is replaced by the download dir getSettings() reports;
     * the answer is the reply's 'arguments', which must be an array.
     */
    method FreeSpace(path: Option<string>) returns (r: Result<Value, Failure>)
      requires builder.Valid()
      modifies builder, builder.httpClient, builder.NextTransport()
      ensures var given := GivenPath(path);
        !Blank(rt, given) ==>
          r == FreeSpaceReply(old(Predict(FreeSpaceCall(given))).result) && Settled(old(Predict(FreeSpaceCall(given))), old(Snap()))
      ensures var s0, e1 := old(Snap()), old(Predict(GetSettingsCall(None)));
        Blank(rt, GivenPath(path)) ==>
          match DownloadDirReply(e1.result)
          case Err(f) => r == Err(f) && Settled(e1, s0)
          case Ok(dir) =>
            var e2 := PredictFrom(SnapAfter(e1, s0), e1.plugins, FreeSpaceCall(dir));
            r == FreeSpaceReply(e2.result) && SettledAfter(e1, s0, e2)
    {
      var given := GivenPath(path);
      if !Blank(rt, given) {
        var res := Api(FreeSpaceCall(given));
        r := FreeSpaceReply(res);
      } else {
        r := FreeSpaceInDownloadDir();
      }
    }

    /** freeSpace() once the path came out blank: ask getSettings() for 'download-dir', then check that. */
    method FreeSpaceInDownloadDir() returns (r: Result<Value, Failure>)
      requires builder.Valid()
      modifies builder, builder.httpClient, builder.NextTransport()
      ensures var s0, e1 := old(Snap()), old(Predict(GetSettingsCall(None)));
        match DownloadDirReply(e1.result)
        case Err(f) => r == Err(f) && Settled(e1, s0)
        case Ok(dir) =>
          var e2 := PredictFrom(SnapAfter(e1, s0), e1.plugins, FreeSpaceCall(dir));
          r == FreeSpaceReply(e2.result) && SettledAfter(e1, s0, e2)
    {
      ghost var s0, e1 := Snap(), Predict(GetSettingsCall(None));
      var settings := GetSettings(None);
      match settings
      case Err(f) =>
        r := Err(f);
      case Ok(data) =>
        match ArgumentsEntry(data, StrKey("download-dir"))
        case Err(f) =>
          r := Err(f);
        case Ok(dir) =>
          ghost var s1 := Snap();
          assert s1 == SnapAfter(e1, s0) && builder.plugins == e1.plugins;
          SnapAfterKeepsHost(e1, s0);
          ghost var e2 := Predict(FreeSpaceCall(dir));
          assert e2 == PredictFrom(s1, e1.plugins, FreeSpaceCall(dir));
          var res := Api(FreeSpaceCall(dir));
          assert Settled(e2, s1);
          r := FreeSpaceReply(res);
    }

    /** seedRatioLimit(): the global limit when 'seedRatioLimited' is set, else -1. */
    method SeedRatioLimit() returns (r: Result<Value, Failure>)
      requires builder.Valid()
      modifies builder, builder.httpClient, builder.NextTransport()
      ensures r == SeedRatioReply(old(Predict(SeedRatioLimitCall())).result)
      ensures Settled(old(Predict(SeedRatioLimitCall())), old(Snap()))
    {
      var settings := GetSettings(Some(["seedRatioLimited", "seedRatioLimit"]));
      r := match settings
        case Err(f) => Err(f)
        case Ok(data) => Ok(SeedRatioLimitOf(data));
    }

    /** updateDownloadDir($dir): setSettings() with 'download-dir'. */
    method UpdateDownloadDir(downloadDir: string) returns (r: Result<bool, Failure>)
      requires builder.Valid()
      modifies builder, builder.httpClient, builder.NextTransport()
      ensures r == Succeeded(old(Predict(UpdateDownloadDirCall(downloadDir))).result)
      ensures Settled(old(Predict(UpdateDownloadDirCall(downloadDir))), old(Snap()))
    {
      r := SetSettings([(StrKey("download-dir"), Str(downloadDir))]);
    }

    /** updateIncompleteDir($dir, $enable): setSettings() with the flag, then the dir. */
    method UpdateIncompleteDir(incompleteDir: string, enable: bool) returns (r: Result<bool, Failure>)
      requires builder.Valid()
      modifies builder, builder.httpClient, builder.NextTransport()
      ensures r == Succeeded(old(Predict(UpdateIncompleteDirCall(incompleteDir, enable))).result)
      ensures Settled(old(Predict(UpdateIncompleteDirCall(incompleteDir, enable))), old(Snap()))
    {
      r := SetSettings([(StrKey("incomplete-dir-enabled"), Bool(enable)), (StrKey("incomplete-dir"), Str(incompleteDir))]);
    }
  }
}
