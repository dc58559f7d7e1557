/**
 * The HTTP client builder: a plugin list edited in place, a transport, and a plugin client
 * rebuilt from both only when the list has changed since the last build.
 */
module HttpClientBuilder {
  import opened Wrappers
  import opened Http
  import opened Failures
  import opened ExceptionThrower
  import opened Plugins
  import opened Sequences

  /**
   * The object that sends HTTP messages, reduced to the responses it will hand back, in
   * order, and the requests it has delivered so far. An exhausted script is a transport
   * that cannot deliver.
   */
  class Transport {
    var script: seq<Response>
    var sent: seq<Request>

    constructor(script: seq<Response>)
      ensures this.script == script && sent == []
    {
      this.script := script;
      sent := [];
    }

    method SendRequest(r: Request) returns (resp: Option<Response>)
      modifies this
      ensures old(script) == [] ==> resp == None && script == old(script) && sent == old(sent)
      ensures old(script) != [] ==>
        resp == Some(old(script)[0]) && script == old(script)[1..] && sent == old(sent) + [r]
    {
      if script == [] {
        resp := None;
      } else {
        resp := Some(script[0]);
        script := script[1..];
        sent := sent + [r];
      }
    }
  }

  /** What a response becomes once the chain's verdict on it is in. */
  function Delivered(v: Verdict, resp: Response): Result<Response, Failure> {
    match v
    case PassThrough => Ok(resp)
    case Raise(f) => Err(f)
  }

  /** PluginClientFactory::createClient($httpClient, $plugins): the transport behind the chain. */
  datatype PluginClient = PluginClient(transport: Transport, plugins: seq<Plugin>) {
    /** The chain rewrites the request, the transport answers, the chain judges the answer. */
    method SendRequest(rt: Php.Runtime, r: Request) returns (out: Result<Response, Failure>)
      modifies transport
      ensures old(transport.script) == [] ==>
        out == Err(TransportFailure) && transport.script == old(transport.script) && transport.sent == old(transport.sent)
      ensures old(transport.script) != [] ==>
        transport.script == old(transport.script)[1..]
        && transport.sent == old(transport.sent) + [ThroughChain(rt, plugins, r)]
        && out == Delivered(ChainResponse(rt, plugins, old(transport.script)[0]), old(transport.script)[0])
    {
      var resp := transport.SendRequest(ThroughChain(rt, plugins, r));
      match resp
      case None => out := Err(TransportFailure);
      case Some(x) => out := Delivered(ChainResponse(rt, plugins, x), x);
    }
  }

  /** Whether some plugin of the list is an instance of the class. */
  predicate HasClass(ps: seq<Plugin>, c: PluginClass) {
    exists p | p in ps :: ClassOf(p) == c
  }

  /** The list with every plugin of a class taken out, the others in their order. */
  function WithoutClass(ps: seq<Plugin>, c: PluginClass): (r: seq<Plugin>)
    ensures Subsequence(r, ps)
  {
    if ps == [] then []
    else
      var rest := WithoutClass(ps[1..], c);
      if ClassOf(ps[0]) == c then
        SubsequenceWeaken(rest, ps[1..], ps[0]);
        assert [ps[0]] + ps[1..] == ps;
        rest
      else
        assert ([ps[0]] + rest)[1..] == rest;
        [ps[0]] + rest
  }

  /** PHP array keys order: unset leaves the rest in place, `[]=` appends at the end. */
  class Builder {
    var httpClient: Transport
    var pluginClient: Option<PluginClient>
    var httpClientModified: bool
    var plugins: seq<Plugin>

    /** An unmodified builder has built a client, and it carries the current plugin list. */
    predicate Valid()
      reads this
    {
      !httpClientModified ==> pluginClient.Some? && pluginClient.value.plugins == plugins
    }

    /** Every transport a send through this builder may reach. */
    function Transports(): set<object>
      reads this
    {
      {httpClient} + (if pluginClient.Some? then {pluginClient.value.transport} else {})
    }

    /** The transport the next send goes to. */
    function NextTransport(): Transport
      reads this
      requires Valid()
    {
      if httpClientModified then httpClient else pluginClient.value.transport
    }

    /** The responses the reachable transports have left, each transport counted once. */
    function Budget(): nat
      reads this, Transports()
    {
      |httpClient.script|
      + (if pluginClient.Some? && pluginClient.value.transport != httpClient then |pluginClient.value.transport.script| else 0)
    }

    constructor(httpClient: Transport)
      ensures Valid()
      ensures this.httpClient == httpClient && plugins == [] && httpClientModified && pluginClient == None
    {
      this.httpClient := httpClient;
      pluginClient := None;
      httpClientModified := true;
      plugins := [];
    }

    /** A fresh plugin client when the list changed since the last build, else the cached one. */
    method GetHttpClient() returns (client: PluginClient)
      requires Valid()
      modifies this
      ensures Valid() && !httpClientModified && pluginClient == Some(client)
      ensures old(httpClientModified) ==> client == PluginClient(httpClient, plugins)
      ensures !old(httpClientModified) ==> client == old(pluginClient).value
      ensures client.plugins == plugins && client.transport == old(NextTransport())
      ensures plugins == old(plugins) && httpClient == old(httpClient)
    {
      if httpClientModified {
        httpClientModified := false;
        pluginClient := Some(PluginClient(httpClient, plugins));
      }
      client := pluginClient.value;
    }

    /** Replaces the transport, but leaves the flag alone: a built client keeps the old one. */
    method SetHttpClient(t: Transport)
      requires Valid()
      modifies this
      ensures Valid() && httpClient == t
      ensures plugins == old(plugins) && httpClientModified == old(httpClientModified)
      ensures pluginClient == old(pluginClient)
    {
      httpClient := t;
    }

    /** Appends the plugin to the end of the chain and marks the client for rebuilding. */
    method AddPlugin(p: Plugin)
      requires Valid()
      modifies this
      ensures Valid() && plugins == old(plugins) + [p] && httpClientModified
      ensures httpClient == old(httpClient) && pluginClient == old(pluginClient)
    {
      plugins := plugins + [p];
      httpClientModified := true;
    }

    /** Unsets every plugin of the class; the flag is set only when one was there. */
    method RemovePlugin(c: PluginClass)
      requires Valid()
      modifies this
      ensures Valid()
      ensures plugins == WithoutClass(old(plugins), c)
      ensures httpClientModified == (old(httpClientModified) || HasClass(old(plugins), c))
      ensures httpClient == old(httpClient) && pluginClient == old(pluginClient)
    {
      var source := plugins;
      var kept: seq<Plugin> := [];
      var i := 0;
      while i < |source|
        invariant 0 <= i <= |source|
        invariant kept == WithoutClass(source[..i], c)
        invariant plugins == kept + source[i..]
        invariant httpClientModified == (old(httpClientModified) || HasClass(source[..i], c))
        invariant httpClient == old(httpClient) && pluginClient == old(pluginClient)
      {
        RemoveStep(source, i, kept, c);
        if ClassOf(source[i]) == c {
          plugins := kept + source[i + 1..];
          httpClientModified := true;
        } else {
          kept := kept + [source[i]];
        }
        i := i + 1;
      }
      assert source[..i] == source;
      if !HasClass(source, c) {
        WithoutAbsentClass(source, c);
      }
    }

    /** Builder::sendRequest: through whichever plugin client getHttpClient hands back. */
    method SendRequest(rt: Php.Runtime, r: Request) returns (out: Result<Response, Failure>)
      requires Valid()
      modifies this, NextTransport()
      ensures Valid() && !httpClientModified && plugins == old(plugins) && httpClient == old(httpClient)
      ensures var t := old(NextTransport());
        (old(t.script) == [] ==> out == Err(TransportFailure) && t.script == old(t.script) && t.sent == old(t.sent))
        && (old(t.script) != [] ==>
          t.script == old(t.script)[1..]
          && t.sent == old(t.sent) + [ThroughChain(rt, plugins, r)]
          && out == Delivered(ChainResponse(rt, plugins, old(t.script)[0]), old(t.script)[0]))
    {
      var client := GetHttpClient();
      out := client.SendRequest(rt, r);
    }
  }

  // ---------------------------------------------------------------- lemmas

  /** One iteration of removePlugin's loop, on values: what the next element does to the kept list and the flag. */
  lemma RemoveStep(source: seq<Plugin>, i: nat, kept: seq<Plugin>, c: PluginClass)
    requires i < |source| && kept == WithoutClass(source[..i], c)
    ensures var p := source[i];
      WithoutClass(source[..i + 1], c) == (if ClassOf(p) == c then kept else kept + [p])
      && (HasClass(source[..i + 1], c) <==> HasClass(source[..i], c) || ClassOf(p) == c)
      && (ClassOf(p) != c ==> kept + source[i..] == kept + [p] + source[i + 1..])
  {
    WithoutClassSnoc(source[..i], source[i], c);
    HasClassSnoc(source[..i], source[i], c);
    TakeSnoc(source, i);
    DropCons(source, i);
    AppendAssociative(kept, [source[i]], source[i + 1..]);
  }

  /** Removal works one element at a time from the front. */
  lemma {:induction false} WithoutClassSnoc(ps: seq<Plugin>, p: Plugin, c: PluginClass)
    ensures WithoutClass(ps + [p], c) == WithoutClass(ps, c) + (if ClassOf(p) == c then [] else [p])
  {
    if ps == [] {
      assert [p][1..] == [];
    } else {
      assert (ps + [p])[0] == ps[0] && (ps + [p])[1..] == ps[1..] + [p];
      WithoutClassSnoc(ps[1..], p, c);
    }
  }

  /** Exactly the plugins of other classes survive removal. */
  lemma {:induction false} WithoutClassMembers(ps: seq<Plugin>, c: PluginClass)
    ensures forall p | p in WithoutClass(ps, c) :: p in ps && ClassOf(p) != c
    ensures forall p | p in ps && ClassOf(p) != c :: p in WithoutClass(ps, c)
  {
    if ps != [] {
      WithoutClassMembers(ps[1..], c);
      assert forall p | p in ps :: p == ps[0] || p in ps[1..];
    }
  }

  lemma HasClassSnoc(ps: seq<Plugin>, p: Plugin, c: PluginClass)
    ensures HasClass(ps + [p], c) <==> HasClass(ps, c) || ClassOf(p) == c
  {
    assert forall q | q in ps + [p] :: q in ps || q == p;
    assert p in ps + [p];
    assert forall q | q in ps :: q in ps + [p];
  }

  /** Removal leaves no plugin of the class and every plugin of another class. */
  lemma {:induction false} WithoutClassCounts(ps: seq<Plugin>, c: PluginClass, d: PluginClass)
    ensures CountClass(WithoutClass(ps, c), c) == 0
    ensures d != c ==> CountClass(WithoutClass(ps, c), d) == CountClass(ps, d)
  {
    if ps != [] {
      WithoutClassCounts(ps[1..], c, d);
      if ClassOf(ps[0]) != c {
        assert ([ps[0]] + WithoutClass(ps[1..], c))[1..] == WithoutClass(ps[1..], c);
      }
    }
  }

  /**
   * Only an ExceptionThrower judges responses: removing the plugins of any other class, or
   * appending a plugin of another class (a session or credentials plugin, say), leaves the
   * chain's verdict on every response as it was.
   */
  lemma ChainVerdictUnaffected(rt: Php.Runtime, ps: seq<Plugin>, c: PluginClass, p: Plugin, resp: Response)
    requires c != ExceptionThrowerClass && ClassOf(p) != ExceptionThrowerClass
    ensures ChainResponse(rt, WithoutClass(ps, c), resp) == ChainResponse(rt, ps, resp)
    ensures ChainResponse(rt, ps + [p], resp) == ChainResponse(rt, ps, resp)
  {
    WithoutClassMembers(ps, c);
    assert ExceptionThrowerPlugin in ps ==> ExceptionThrowerPlugin in WithoutClass(ps, c);
    assert ExceptionThrowerPlugin in ps + [p] <==> ExceptionThrowerPlugin in ps;
  }

  /** Removing twice is removing once. */
  lemma {:induction false} WithoutClassIdempotent(ps: seq<Plugin>, c: PluginClass)
    ensures WithoutClass(WithoutClass(ps, c), c) == WithoutClass(ps, c)
  {
    if ps != [] {
      WithoutClassIdempotent(ps[1..], c);
      if ClassOf(ps[0]) != c {
        assert ([ps[0]] + WithoutClass(ps[1..], c))[1..] == WithoutClass(ps[1..], c);
      }
    }
  }

  /** A list without the class is left as it is. */
  lemma {:induction false} WithoutAbsentClass(ps: seq<Plugin>, c: PluginClass)
    requires !HasClass(ps, c)
    ensures WithoutClass(ps, c) == ps
  {
    if ps != [] {
      assert forall p | p in ps[1..] :: p in ps;
      WithoutAbsentClass(ps[1..], c);
      assert [ps[0]] + ps[1..] == ps;
    }
  }

  /**
   * Remove-then-add keeps exactly one plugin of the class, the new one, at the end of the
   * list, with the other plugins before it in their old order.
   */
  lemma ReplaceLeavesOne(ps: seq<Plugin>, p: Plugin)
    ensures var r := WithoutClass(ps, ClassOf(p)) + [p];
      CountClass(r, ClassOf(p)) == 1 && r[|r| - 1] == p
      && Subsequence(r[..|r| - 1], ps)
      && forall q | q in r && ClassOf(q) == ClassOf(p) :: q == p
  {
    var w := WithoutClass(ps, ClassOf(p));
    WithoutClassCounts(ps, ClassOf(p), ClassOf(p));
    CountClassAppend(w, [p], ClassOf(p));
    assert [p][1..] == [];
    assert (w + [p])[..|w|] == w;
    forall q | q in w + [p] && ClassOf(q) == ClassOf(p) ensures q == p {
      assert q in w || q == p;
    }
  }
}
