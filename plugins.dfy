/**
 * The plugins the client installs on its HTTP pipeline, and what each does to an outgoing
 * request and to the response that comes back. AuthSession is the repository's own; the
 * others come from php-http and are modelled by their documented effect on the headers.
 */
module Plugins {
  import opened Wrappers
  import opened PhpStrings
  import opened Php
  import opened Http
  import opened ExceptionThrower

  datatype Plugin =
    | ExceptionThrowerPlugin
    | HistoryPlugin
      /** HeaderDefaultsPlugin: name/value pairs set only where the request lacks the header. */
    | HeaderDefaultsPlugin(defaults: seq<(string, string)>)
      /** AuthenticationPlugin over BasicAuth. */
    | AuthenticationPlugin(username: string, password: string)
      /** AuthSession, holding the session id it was constructed with. */
    | AuthSessionPlugin(sessionId: string)

  /** The class a plugin is an instance of, as `removePlugin` matches it. */
  datatype PluginClass = ExceptionThrowerClass | HistoryClass | HeaderDefaultsClass | AuthenticationClass | AuthSessionClass

  function ClassOf(p: Plugin): PluginClass {
    match p
    case ExceptionThrowerPlugin => ExceptionThrowerClass
    case HistoryPlugin => HistoryClass
    case HeaderDefaultsPlugin(_) => HeaderDefaultsClass
    case AuthenticationPlugin(_, _) => AuthenticationClass
    case AuthSessionPlugin(_) => AuthSessionClass
  }

  const SessionHeader: string := "X-Transmission-Session-Id"

  /** AuthSession::handleRequest: set the session header when the stored id is filled. */
  function AuthSessionRequest(sessionId: string, r: Request): (out: Request)
    ensures out.verb == r.verb && out.uri == r.uri && out.body == r.body
  {
    if !IsBlankString(sessionId) then RequestWithHeader(r, SessionHeader, sessionId) else r
  }

  /** HeaderDefaultsPlugin: each default is set only when no header of that name is present. */
  function HeaderDefaultsRequest(defaults: seq<(string, string)>, r: Request): (out: Request)
    ensures out.verb == r.verb && out.uri == r.uri && out.body == r.body
    decreases |defaults|
  {
    if defaults == [] then r
    else
      var (name, value) := defaults[0];
      var r' := if HasHeader(r.headers, name) then r else RequestWithHeader(r, name, value);
      HeaderDefaultsRequest(defaults[1..], r')
  }

  /** AuthenticationPlugin with BasicAuth: `Authorization: Basic base64(username:password)`. */
  function BasicAuthRequest(rt: Runtime, username: string, password: string, r: Request): (out: Request)
    ensures out.verb == r.verb && out.uri == r.uri && out.body == r.body
  {
    RequestWithHeader(r, "Authorization", "Basic " + rt.base64Encode(username + ":" + password))
  }

  /** What one plugin does to the request before handing it to the next. */
  function PluginRequest(rt: Runtime, p: Plugin, r: Request): (out: Request)
    ensures out.verb == r.verb && out.uri == r.uri && out.body == r.body
  {
    match p
    case ExceptionThrowerPlugin => r
    case HistoryPlugin => r
    case HeaderDefaultsPlugin(d) => HeaderDefaultsRequest(d, r)
    case AuthenticationPlugin(u, pw) => BasicAuthRequest(rt, u, pw, r)
    case AuthSessionPlugin(sid) => AuthSessionRequest(sid, r)
  }

  /** The request the transport receives: each plugin in chain order passes it to the next. */
  function ThroughChain(rt: Runtime, plugins: seq<Plugin>, r: Request): (out: Request)
    ensures out.verb == r.verb && out.uri == r.uri && out.body == r.body
    decreases |plugins|
  {
    if plugins == [] then r else ThroughChain(rt, plugins[1..], PluginRequest(rt, plugins[0], r))
  }

  /**
   * What the chain makes of the transport's response: only ExceptionThrower's callback
   * acts on it (History records it, the others leave it alone).
   */
  function ChainResponse(rt: Runtime, plugins: seq<Plugin>, resp: Response): Verdict {
    if ExceptionThrowerPlugin in plugins then HandleResponse(rt, resp) else PassThrough
  }

  function CountClass(plugins: seq<Plugin>, c: PluginClass): nat {
    if plugins == [] then 0 else (if ClassOf(plugins[0]) == c then 1 else 0) + CountClass(plugins[1..], c)
  }

  // ---------------------------------------------------------------- lemmas

  /** A filled session id puts exactly one session header, carrying that id, on the request. */
  lemma FilledSessionSetsHeader(sessionId: string, r: Request, asked: string)
    requires !IsBlankString(sessionId) && EqualsIgnoreCase(SessionHeader, asked)
    ensures HeaderLine(AuthSessionRequest(sessionId, r).headers, asked) == sessionId
    ensures Occurrences(AuthSessionRequest(sessionId, r).headers, asked) == 1
  {
    WithHeaderSets(r.headers, SessionHeader, sessionId, asked);
  }

  /** Any earlier session header is replaced, not appended to; other headers are untouched. */
  lemma SessionHeaderReplaces(sessionId: string, old_: string, r: Request)
    requires !IsBlankString(sessionId)
    ensures AuthSessionRequest(sessionId, RequestWithHeader(r, SessionHeader, old_))
         == AuthSessionRequest(sessionId, r)
  {
    WithHeaderTwice(r.headers, SessionHeader, old_, sessionId);
  }

  lemma SessionKeepsOtherHeaders(sessionId: string, r: Request, other: string)
    requires !EqualsIgnoreCase(SessionHeader, other)
    ensures Values(AuthSessionRequest(sessionId, r).headers, other) == Values(r.headers, other)
  {
    if !IsBlankString(sessionId) {
      WithHeaderKeepsOthers(r.headers, SessionHeader, sessionId, other);
    }
  }

  /** A blank session id forwards the request unchanged. */
  lemma BlankSessionForwardsUnchanged(sessionId: string, r: Request)
    requires IsBlankString(sessionId)
    ensures AuthSessionRequest(sessionId, r) == r
  {
  }

  /** The chain never alters the verb, the URI or the body. */
  lemma ChainKeepsMessage(rt: Runtime, plugins: seq<Plugin>, r: Request)
    ensures var out := ThroughChain(rt, plugins, r);
      out.verb == r.verb && out.uri == r.uri && out.body == r.body
  {
  }

  /** A chain ending in a plugin applies everything before it first, then that plugin. */
  lemma {:induction false} ThroughChainAppend(rt: Runtime, plugins: seq<Plugin>, p: Plugin, r: Request)
    ensures ThroughChain(rt, plugins + [p], r) == PluginRequest(rt, p, ThroughChain(rt, plugins, r))
    decreases |plugins|
  {
    if plugins == [] {
      assert [p][1..] == [];
    } else {
      assert (plugins + [p])[1..] == plugins[1..] + [p];
      ThroughChainAppend(rt, plugins[1..], p, PluginRequest(rt, plugins[0], r));
    }
  }

  /** With the session plugin last, the transport sees exactly its session id. */
  lemma LastSessionWins(rt: Runtime, plugins: seq<Plugin>, sessionId: string, r: Request)
    requires !IsBlankString(sessionId)
    ensures HeaderLine(ThroughChain(rt, plugins + [AuthSessionPlugin(sessionId)], r).headers, SessionHeader) == sessionId
  {
    ThroughChainAppend(rt, plugins, AuthSessionPlugin(sessionId), r);
    FilledSessionSetsHeader(sessionId, ThroughChain(rt, plugins, r), SessionHeader);
  }

  /** A default header does not override one the request already carries. */
  lemma DefaultsDoNotOverride(name: string, value: string, r: Request)
    requires HasHeader(r.headers, name)
    ensures HeaderDefaultsRequest([(name, value)], r) == r
  {
  }

  /** A default header is set when the request lacks it. */
  lemma DefaultsFillIn(name: string, value: string, r: Request)
    requires !HasHeader(r.headers, name)
    ensures HeaderLine(HeaderDefaultsRequest([(name, value)], r).headers, name) == value
  {
    WithHeaderSets(r.headers, name, value, name);
  }

  lemma {:induction false} CountClassAppend(a: seq<Plugin>, b: seq<Plugin>, c: PluginClass)
    ensures CountClass(a + b, c) == CountClass(a, c) + CountClass(b, c)
  {
    if a == [] {
      assert a + b == b;
    } else {
      assert (a + b)[0] == a[0] && (a + b)[1..] == a[1..] + b;
      CountClassAppend(a[1..], b, c);
    }
  }
}
