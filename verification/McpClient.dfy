/**
 The MCP client (client.rs): one request at a time on a transport, poisoned before every dispatch. At
 every await the caller may drop the operation; an answer `Gone` says that it did.
 */
module McpClients {
  import opened Wrappers
  import opened Jsons
  import opened Text
  import opened Ordering

  datatype State = New | Ready | Failed | Closed
  datatype Error = IsClosed | Limit | Policy | Unknown | Remote(code: int) | Protocol | Transport

  // What an operation comes to: a result, or the caller dropped it at an await.
  datatype Outcome<T> = Done(r: Result<T, Error>) | Abandoned

  // The answers of the environment at the awaits of one exchange.
  datatype Hook = Fine | Refused | Gone
  datatype Reply = Value(v: Json) | Fails(e: Error) | TimedOut | Lost
  datatype Answers = Answers(before: Hook, reply: Reply, after: Hook)
  datatype Approval = Granted | Withheld | Unavailable | Left

  datatype Capabilities = Capabilities(tools: bool, resources: bool, prompts: bool)
  datatype Tool = Tool(name: string, readOnly: bool)

  // What is written to a transport, and that a request on it got an answer whose audit was kept.
  datatype Event = Sent(operation: string, params: Json) | Settled(operation: string)

  const INITIALIZE := "initialize"
  const INITIALIZED := "notifications/initialized"
  const CALL := "tools/call"

  // Everything written was settled before the next thing was.
  ghost predicate Orderly(h: seq<Event>) {
    && (forall i :: 0 <= i < |h| - 1 && h[i].Sent? ==> h[i + 1] == Settled(h[i].operation))
    && (forall i :: 0 <= i < |h| && h[i].Settled? ==> i > 0 && h[i - 1].Sent? && h[i - 1].operation == h[i].operation)
  }

  // No request is open or ended without a settled outcome.
  ghost predicate Quiet(h: seq<Event>) {
    h == [] || h[|h| - 1].Settled?
  }

  predicate GreetedAt(h: seq<Event>, k: nat) {
    && k + 3 < |h| && h[k].Sent? && h[k].operation == INITIALIZE && h[k + 1] == Settled(INITIALIZE)
    && h[k + 2] == Sent(INITIALIZED, EMPTY) && h[k + 3] == Settled(INITIALIZED)
  }

  // An initialization was answered and then announced.
  ghost predicate Greeted(h: seq<Event>) {
    exists k: nat :: GreetedAt(h, k)
  }

  lemma SentOrderly(h: seq<Event>, operation: string, params: Json)
    requires Orderly(h) && Quiet(h)
    ensures var sent := Sent(operation, params);
      Orderly(h + [sent]) && Orderly(h + [sent, Settled(operation)]) && Quiet(h + [sent, Settled(operation)])
  {
    var one, two := h + [Sent(operation, params)], h + [Sent(operation, params), Settled(operation)];
    forall i | 0 <= i < |one| ensures one[i] == if i < |h| then h[i] else Sent(operation, params) {}
    forall i | 0 <= i < |two| - 1 && two[i].Sent? ensures two[i + 1] == Settled(two[i].operation) {
      if i < |h| - 1 { assert two[i] == h[i] && two[i + 1] == h[i + 1]; }
    }
    forall i | 0 <= i < |two| && two[i].Settled?
      ensures i > 0 && two[i - 1].Sent? && two[i - 1].operation == two[i].operation
    {
      if i < |h| { assert two[i] == h[i] && two[i - 1] == h[i - 1]; }
    }
  }

  lemma GreetedMore(h: seq<Event>, more: seq<Event>)
    requires Greeted(h)
    ensures Greeted(h + more)
  {
    var k: nat :| GreetedAt(h, k);
    assert GreetedAt(h + more, k);
  }

  lemma Greeting(h: seq<Event>, params: Json)
    ensures Greeted(
      h + [Sent(INITIALIZE, params), Settled(INITIALIZE)] + [Sent(INITIALIZED, EMPTY), Settled(INITIALIZED)])
  {
    var all := h + [Sent(INITIALIZE, params), Settled(INITIALIZE)] + [Sent(INITIALIZED, EMPTY), Settled(INITIALIZED)];
    assert GreetedAt(all, |h|);
  }

  // ---- what one exchange comes to

  // Whether the answer leaves no doubt about the session.
  predicate Reusable(operation: string, reply: Reply, tooLarge: bool, wellFormed: bool) {
    match reply
    case Value(_) => !tooLarge && (operation == CALL ==> wellFormed)
    case Fails(e) => e.Remote? || e.Policy?
    case _ => false
  }

  function ResultOf(operation: string, reply: Reply, tooLarge: bool, wellFormed: bool): Result<Json, Error>
    requires reply != Lost
  {
    match reply
    case Value(v) => if Reusable(operation, reply, tooLarge, wellFormed) then Ok(v) else Err(Unknown)
    case Fails(e) => Err(e)
    case _ => Err(Unknown)
  }

  // Whether the configured server is granted, the limits, and the checks of other files.
  datatype Config = Config(
    granted: bool, maxBytes: nat, maxItems: nat, maxPages: nat, streamableHttp: bool,
    size: Json -> nat, validCall: Json -> bool, allowed: string -> bool, remoteReadOnly: Tool -> bool,
    version: string, toolOf: Json -> Option<Tool>, qualified: Tool -> string)

  // What callers see of a catalog: the permitted tools by qualified name.
  function Visible(config: Config, catalog: seq<Tool>): seq<Tool> {
    Sort((a: Tool, b: Tool) => TextLe(config.qualified(a), config.qualified(b)),
      Filter((t: Tool) => config.allowed(t.name) && config.remoteReadOnly(t), catalog))
  }

  lemma VisibleIs(config: Config, catalog: seq<Tool>, t: Tool)
    ensures t in Visible(config, catalog) <==> t in catalog && config.allowed(t.name) && config.remoteReadOnly(t)
  {
    var le := (a: Tool, b: Tool) => TextLe(config.qualified(a), config.qualified(b));
    var p := (x: Tool) => config.allowed(x.name) && config.remoteReadOnly(x);
    forall x, y ensures le(x, y) || le(y, x) {
      TextTotal(config.qualified(x), config.qualified(y));
    }
    forall x, y, z | le(x, y) && le(y, z) ensures le(x, z) {
      TextTransitive(config.qualified(x), config.qualified(y), config.qualified(z));
    }
    FilterIn(p, catalog);
    SortSorts(le, Filter(p, catalog));
    assert t in Sort(le, Filter(p, catalog)) <==> t in multiset(Sort(le, Filter(p, catalog)));
    assert t in Filter(p, catalog) <==> t in multiset(Filter(p, catalog));
  }

  // What a tool call is written as.
  function CallParams(name: string, arguments: Json): Json {
    Object(map["name" := Str(name), "arguments" := arguments])
  }

  class Client {
    const config: Config
    var state: State
    var capabilities: Capabilities
    var tools: Option<seq<Tool>>
    ghost var history: seq<Event>   // of the current transport

    ghost predicate Valid()
      reads this
    {
      && Orderly(history)
      && (state.New? || state.Ready? ==> Quiet(history))
      && (state.Ready? ==> Greeted(history))
    }

    constructor (config: Config)
      ensures Valid() && state == New && history == []
    {
      this.config := config;
      state, capabilities, tools, history := New, Capabilities(false, false, false), None, [];
    }

    predicate CallShape(v: Json) {
      At(v, "content").Array? && (Has(v, "isError") ==> At(v, "isError").Bool?) && config.validCall(v)
    }

    // The poisoned request: the state is restored only for a reusable answer with its final audit kept.
    method Exchange(operation: string, params: Json, env: Answers) returns (r: Outcome<Json>)
      requires Valid()
      modifies this`state, this`history
      ensures Valid()
      ensures var open := config.granted && !old(state).Failed? && !old(state).Closed?
        && config.size(params) <= config.maxBytes;
        var large := env.reply.Value? && config.size(env.reply.v) > config.maxBytes;
        var shaped := env.reply.Value? && CallShape(env.reply.v);
        if !open || env.before != Fine then
          // nothing is dispatched
          && history == old(history) && state == old(state)
          && r == (if !config.granted then Done(Err(Policy))
            else if old(state).Failed? || old(state).Closed? then Done(Err(IsClosed))
            else if !open then Done(Err(Limit)) else if env.before == Refused then Done(Err(Policy)) else Abandoned)
        else if env.reply == Lost || env.after == Gone then
          r == Abandoned && state == Failed && history == old(history) + [Sent(operation, params)]
        else if env.after == Refused then
          r == Done(Err(Unknown)) && state == Failed && history == old(history) + [Sent(operation, params)]
        else
          && r == Done(ResultOf(operation, env.reply, large, shaped))
          && if Reusable(operation, env.reply, large, shaped)
             then state == old(state) && history == old(history) + [Sent(operation, params), Settled(operation)]
             else state == Failed && history == old(history) + [Sent(operation, params)]
      ensures r.Done? && r.r.Ok? <==>
        !old(state).Failed? && !old(state).Closed? && Answered(operation, params, env)
    {
      hide Orderly, Quiet, Greeted;
      if !config.granted {
        return Done(Err(Policy));
      }
      if state.Failed? || state.Closed? {
        return Done(Err(IsClosed));
      }
      if config.size(params) > config.maxBytes {
        return Done(Err(Limit));
      }
      if env.before != Fine {
        return if env.before == Refused then Done(Err(Policy)) else Abandoned;
      }
      SentOrderly(history, operation, params);
      if state.Ready? { GreetedMore(history, [Sent(operation, params), Settled(operation)]); }
      var previous := state;
      state := Failed;
      ghost var was := history;
      history := was + [Sent(operation, params)];
      if env.reply == Lost {
        return Abandoned;
      }
      var reusable := env.reply.Value? || (env.reply.Fails? && (env.reply.e.Remote? || env.reply.e.Policy?));
      var result: Result<Json, Error>;
      match env.reply {
        case Value(v) =>
          if config.size(v) > config.maxBytes || (operation == CALL && !CallShape(v)) {
            reusable := false;
            result := Err(Unknown);
          } else {
            result := Ok(v);
          }
        case Fails(e) => result := Err(e);
        case _ => result := Err(Unknown);
      }
      if env.after == Gone {
        return Abandoned;
      }
      if env.after == Refused {
        state := Failed;
        return Done(Err(Unknown));
      }
      if reusable {
        state := previous;
        history := was + [Sent(operation, params), Settled(operation)];
      }
      return Done(result);
    }

    function Negotiated(v: Json): Capabilities {
      Capabilities(Has(v, "tools"), Has(v, "resources"), Has(v, "prompts"))
    }

    predicate Negotiable(response: Json) {
      var version, c := At(response, "protocolVersion"), At(response, "capabilities");
      && (version == Str("2025-03-26") || (version == Str("2024-11-05") && !config.streamableHttp))
      && c.Object?
      && forall name <- ["tools", "resources", "prompts"] :: Has(c, name) ==> At(c, name).Object?
    }

    // The parameters of an initialization.
    function Introduction(): Json {
      Object(map["protocolVersion" := Str("2025-03-26"), "capabilities" := EMPTY,
        "clientInfo" := Object(map["name" := Str("adk-mcp"), "version" := Str(config.version)])])
    }

    // A request that is dispatched and answered with a value that fits.
    predicate Answered(operation: string, params: Json, env: Answers) {
      && config.granted && config.size(params) <= config.maxBytes && env.before == Fine && env.after == Fine
      && env.reply.Value? && config.size(env.reply.v) <= config.maxBytes
      && (operation == CALL ==> CallShape(env.reply.v))
    }

    // Ready is reached only by an accepted answer and its sent announcement.
    method Initialize(env: Answers, announced: Reply) returns (r: Outcome<Capabilities>)
      requires Valid()
      modifies this`state, this`history, this`capabilities
      ensures Valid()
      ensures old(state) != New ==> r == Done(Err(Protocol)) && history == old(history) && state == old(state)
      ensures r.Done? && r.r.Ok? <==> old(state) == New && state == Ready
      ensures r.Done? && r.r.Ok? <==>
        && old(state) == New && Answered(INITIALIZE, Introduction(), env) && Negotiable(env.reply.v) && announced.Value?
      ensures r.Done? && r.r.Ok? ==>
        history == old(history) + [Sent(INITIALIZE, Introduction()), Settled(INITIALIZE)]
          + [Sent(INITIALIZED, EMPTY), Settled(INITIALIZED)]
      ensures r.Done? && r.r.Ok? ==>
        && env.reply.Value? && Negotiable(env.reply.v)
        && capabilities == r.r.value == Negotiated(At(env.reply.v, "capabilities"))
      ensures old(state) == New && state != Ready ==> state == Failed || (state == New && Quiet(history))
      ensures old(history) <= history && |history| <= |old(history)| + 4
    {
      hide Orderly, Quiet, Greeted;
      if state != New {
        return Done(Err(Protocol));
      }
      ghost var was := history;
      var answer := Exchange(INITIALIZE, Introduction(), env);
      match answer
      case Abandoned => return Abandoned;
      case Done(result) =>
        match result
        case Err(e) => return Done(Err(e));
        case Ok(response) =>
          state := Failed;
          if !Negotiable(response) {
            return Done(Err(Protocol));
          }
          SentOrderly(history, INITIALIZED, EMPTY);
          Greeting(was, Introduction());
          ghost var asked := history;
          history := asked + [Sent(INITIALIZED, EMPTY)];
          if announced == Lost {
            return Abandoned;
          }
          if !announced.Value? {
            return Done(Err(Unknown));
          }
          capabilities := Negotiated(At(response, "capabilities"));
          history := asked + [Sent(INITIALIZED, EMPTY), Settled(INITIALIZED)];
          state := Ready;
          return Done(Ok(capabilities));
    }

    // Only a fresh transport clears a poisoned session.
    method Reconnect(closing: Hook, env: Answers, announced: Reply) returns (r: Outcome<Capabilities>)
      requires Valid()
      modifies this
      ensures Valid()
      ensures closing == Gone ==> r == Abandoned && state == Closed && history == old(history)
      ensures closing != Gone ==> |history| <= 4 && tools == None
      ensures state == Ready <==> r.Done? && r.r.Ok?
    {
      hide Orderly, Quiet, Greeted;
      state := Closed;
      if closing == Gone {
        return Abandoned;
      }
      history := [];
      FreshOrderly();
      capabilities, tools := Capabilities(false, false, false), None;
      state := New;
      r := Initialize(env, announced);
    }

    method Close()
      requires Valid()
      modifies this`state
      ensures Valid() && state == Closed
    {
      state := Closed;
    }

    method CheckReady() returns (r: Result<(), Error>)
      ensures r.Ok? <==> config.granted && state == Ready
    {
      if !config.granted {
        return Err(Policy);
      }
      return if state == Ready then Ok(()) else Err(IsClosed);
    }

    // A page whose request is answered and that can be read.
    predicate PageFine(operation: string, script: seq<Answers>, i: nat, field: string)
      requires i < |script|
    {
      && Answered(operation, CursorParams(if i == 0 then None else NextOf(script[i - 1])), script[i])
      && At(script[i].reply.v, field).Array?
      && (Has(script[i].reply.v, "nextCursor") ==> At(script[i].reply.v, "nextCursor").Str?)
    }

    // Pages that can be read, each naming a next one by a cursor of its own.
    ghost predicate Chain(operation: string, script: seq<Answers>, n: nat, field: string)
      requires n <= |script|
    {
      && (forall i :: 0 <= i < n ==> PageFine(operation, script, i, field) && NextOf(script[i]).Some?)
      && forall i, j :: 0 <= i < j < n ==> NextOf(script[i]) != NextOf(script[j])
    }

    // A listing of this many pages: each but the last names the next, and the items fit.
    ghost predicate Listing(operation: string, script: seq<Answers>, pages: nat, field: string)
      requires |script| >= config.maxPages
    {
      && 0 < pages <= config.maxPages && Chain(operation, script, pages - 1, field)
      && PageFine(operation, script, pages - 1, field) && NextOf(script[pages - 1]).None?
      && |AllItems(script[..pages], field)| <= config.maxItems
    }

    lemma NothingChained(operation: string, script: seq<Answers>, field: string)
      ensures Chain(operation, script, 0, field)
    {}

    lemma ChainMore(operation: string, script: seq<Answers>, n: nat, field: string)
      requires n < |script| && Chain(operation, script, n, field) && PageFine(operation, script, n, field)
      requires NextOf(script[n]).Some?
      requires forall i :: 0 <= i < n ==> NextOf(script[i]) != NextOf(script[n])
      ensures Chain(operation, script, n + 1, field)
    {
      hide PageFine, NextOf;
    }

    // A listing does not go on past a page that cannot be read, nor end before a page that names a next.
    lemma NoListing(operation: string, script: seq<Answers>, n: nat, field: string)
      requires |script| >= config.maxPages >= n && Chain(operation, script, n, field)
      requires n == config.maxPages || !PageFine(operation, script, n, field)
      ensures forall k: nat :: !Listing(operation, script, k, field)
    {
      hide PageFine, NextOf, AllItems;
    }

    // Nor past one whose cursor has been used, nor past its limit.
    lemma NoRepetition(operation: string, script: seq<Answers>, n: nat, i: nat, field: string)
      requires |script| >= config.maxPages > n > i && Chain(operation, script, n, field)
      requires NextOf(script[n]).Some? && NextOf(script[i]) == NextOf(script[n])
      ensures forall k: nat :: !Listing(operation, script, k, field)
    {
      hide PageFine, AllItems;
    }

    lemma NoSpace(operation: string, script: seq<Answers>, n: nat, field: string)
      requires |script| >= config.maxPages > n && Chain(operation, script, n, field)
      requires |AllItems(script[..n + 1], field)| > config.maxItems
      ensures forall k: nat :: !Listing(operation, script, k, field)
    {
      hide PageFine, NextOf, AllItems;
      forall k: nat ensures !Listing(operation, script, k, field) {
        if n < k <= config.maxPages { ItemsGrow(script, n + 1, k, field); }
      }
    }

    lemma {:induction false} ItemsGrow(script: seq<Answers>, n: nat, m: nat, field: string)
      requires n <= m <= |script|
      ensures |AllItems(script[..n], field)| <= |AllItems(script[..m], field)|
    {
      if n < m {
        ItemsGrow(script, n, m - 1, field);
        assert script[..m][..m - 1] == script[..m - 1];
      }
    }

    // One page: its request, and its items if it is answered and has any.
    method Fetch(
      operation: string, field: string, cursor: Option<string>, script: seq<Answers>, n: nat, ghost start: seq<Event>,
      ghost asked: seq<Option<string>>)
      returns (r: Outcome<seq<Json>>, ghost more: seq<Option<string>>)
      requires Valid() && state == Ready && n < |script| && |asked| == n
      requires start <= history && |history| <= |start| + 2 * n
      requires FollowsCursors(asked, script) && WrittenFor(history[|start|..], operation, asked)
      requires cursor == if n == 0 then None else NextOf(script[n - 1])
      requires n > 0 ==> cursor.Some?
      requires forall i :: 0 < i < n ==> asked[i] != cursor
      modifies this`state, this`history
      ensures Valid() && start <= history && |more| <= n + 1 && |history| <= |start| + 2 * |more|
      ensures FollowsCursors(more, script) && WrittenFor(history[|start|..], operation, more)
      ensures r.Done? && r.r.Ok? <==>
        Answered(operation, CursorParams(cursor), script[n]) && At(script[n].reply.v, field).Array?
      ensures r.Done? && r.r.Ok? ==>
        more == asked + [cursor] && state == Ready && r.r.value == At(script[n].reply.v, field).items
    {
      hide Orderly, Quiet, Greeted, Continues, CursorParams, WrittenFor, FollowsCursors, CallShape;
      more := asked;
      ghost var before := history;
      var answer := Exchange(operation, CursorParams(cursor), script[n]);
      if history != before {
        FollowsMore(asked, cursor, script);
        WrittenMore(start, before, history, operation, asked, cursor);
        more := asked + [cursor];
      }
      if answer.Abandoned? {
        return Abandoned, more;
      }
      if answer.r.Err? {
        return Done(Err(answer.r.error)), more;
      }
      var response := answer.r.value;
      assert script[n].reply == Value(response);
      if !At(response, field).Array? {
        return Done(Err(Protocol)), more;
      }
      return Done(Ok(At(response, field).items)), more;
    }

    // All pages of a listing; `asked` are the cursors sent, none with the first request.
    method Pages(
      operation: string, field: string, script: seq<Answers>)
      returns (r: Outcome<seq<Json>>, ghost asked: seq<Option<string>>)
      requires Valid() && |script| >= config.maxPages
      modifies this`state, this`history
      ensures Valid()
      ensures |asked| <= config.maxPages && old(history) <= history && |history| <= |old(history)| + 2 * |asked|
      ensures FollowsCursors(asked, script) && WrittenFor(history[|old(history)|..], operation, asked)
      ensures r.Done? && r.r.Ok? ==>
        && 0 < |asked| && (forall i :: 0 <= i < |asked| ==> script[i].reply.Value?)
        && r.r.value == AllItems(script[..|asked|], field) && |r.r.value| <= config.maxItems
        && Continues(script[|asked| - 1].reply.v).None? && state == Ready
      ensures r.Done? && r.r.Ok? <==>
        old(state) == Ready && config.granted && exists k: nat :: Listing(operation, script, k, field)
    {
      hide Orderly, Quiet, Greeted, Continues, CursorParams, AllItems, WrittenFor, FollowsCursors, CallShape, Listing,
        PageFine, Chain;
      NothingChained(operation, script, field);
      asked := [];
      NothingWritten(operation, script);
      assert history[|history|..] == [];
      var ready := CheckReady();
      if ready.Err? {
        return Done(Err(ready.error)), asked;
      }
      var cursor: Option<string> := None;
      var seen: set<string> := {};
      var items: seq<Json> := [];
      var n := 0;
      NoItems(field);
      assert script[..0] == [];
      while n < config.maxPages
        invariant 0 <= n <= config.maxPages && |asked| == n
        invariant Valid() && state == Ready && old(history) <= history && |history| <= |old(history)| + 2 * n
        invariant FollowsCursors(asked, script) && WrittenFor(history[|old(history)|..], operation, asked)
        invariant forall i :: 0 < i < n ==> asked[i].Some? && asked[i].value in seen && asked[i] != cursor
        invariant if n == 0 then cursor == None && seen == {}
          else cursor.Some? && NextOf(script[n - 1]) == cursor && cursor.value in seen
        invariant items == AllItems(script[..n], field) && |items| <= config.maxItems
        invariant Chain(operation, script, n, field)
        invariant forall x <- seen :: exists i: nat :: i < n && NextOf(script[i]) == Some(x)
        invariant forall i :: 0 <= i < n ==>
          script[i].reply.Value? && NextOf(script[i]).Some? && NextOf(script[i]).value in seen
      {
        PageNeeds(operation, script, n, field);
        var page, more := Fetch(operation, field, cursor, script, n, old(history), asked);
        asked := more;
        if page.Abandoned? || page.r.Err? {
          NoListing(operation, script, n, field);
          return if page.Abandoned? then Abandoned else Done(Err(page.r.error)), asked;
        }
        ItemsMore(script, n, field);
        if |page.r.value| > config.maxItems - |items| {
          NoSpace(operation, script, n, field);
          return Done(Err(Limit)), asked;
        }
        var response := script[n].reply.v;
        items := items + page.r.value;
        if Has(response, "nextCursor") && !At(response, "nextCursor").Str? {
          NoListing(operation, script, n, field);
          return Done(Err(Protocol)), asked;
        }
        n := n + 1;
        var next := Continues(response);
        if next.None? {
          IsListing(operation, script, n, field);
          return Done(Ok(items)), asked;
        }
        if next.value in seen {
          ghost var i: nat :| i < n - 1 && NextOf(script[i]) == next;
          NoRepetition(operation, script, n - 1, i, field);
          return Done(Err(Protocol)), asked;
        }
        ChainMore(operation, script, n - 1, field);
        seen := seen + {next.value};
        cursor := next;
      }
      NoListing(operation, script, n, field);
      return Done(Err(Limit)), asked;
    }

    lemma PageNeeds(operation: string, script: seq<Answers>, n: nat, field: string)
      requires n < |script|
      ensures PageFine(operation, script, n, field) <==>
        && Answered(operation, CursorParams(if n == 0 then None else NextOf(script[n - 1])), script[n])
        && At(script[n].reply.v, field).Array?
        && (Has(script[n].reply.v, "nextCursor") ==> At(script[n].reply.v, "nextCursor").Str?)
    {}

    lemma IsListing(operation: string, script: seq<Answers>, pages: nat, field: string)
      requires |script| >= config.maxPages >= pages > 0 && Chain(operation, script, pages - 1, field)
      requires PageFine(operation, script, pages - 1, field) && NextOf(script[pages - 1]).None?
      requires |AllItems(script[..pages], field)| <= config.maxItems
      ensures Listing(operation, script, pages, field)
    {}

    // Discovery, once for a session: the catalog becomes the listed tools, each name once. What callers
    // see of it are the permitted tools in the order of their qualified names.
    method ListTools(script: seq<Answers>) returns (r: Outcome<seq<Tool>>, ghost asked: seq<Option<string>>)
      requires Valid() && |script| >= config.maxPages
      modifies this`state, this`history, this`tools
      ensures Valid() && |asked| <= config.maxPages
      ensures tools != old(tools) ==>
        && old(tools).None? && tools.Some? && |asked| > 0
        && Catalogs(AllItems(script[..|asked|], "tools"), tools.value)
      ensures old(tools).Some? ==> history == old(history) && tools == old(tools)
      ensures r.Done? && r.r.Ok? && capabilities.tools ==>
        tools.Some? && r.r.value == Visible(config, tools.value)
      ensures r.Done? && r.r.Ok? && !capabilities.tools ==> r.r.value == []
      ensures old(state) == Ready && config.granted && (!capabilities.tools || old(tools).Some?) ==> r.Done? && r.r.Ok?
      ensures r.Done? && r.r.Ok? ==> old(state) == Ready && config.granted
      ensures old(state) == Ready && config.granted && capabilities.tools && old(tools).None? ==>
        (r.Done? && r.r.Ok? <==>
          && (exists k: nat :: Listing("tools/list", script, k, "tools"))
          && exists found :: Catalogs(AllItems(script[..|asked|], "tools"), found))
    {
      hide Orderly, Quiet, Greeted, AllItems, Visible, Listing, Catalogs;
      asked := [];
      var ready := CheckReady();
      if ready.Err? {
        return Done(Err(ready.error)), asked;
      }
      if !capabilities.tools {
        return Done(Ok([])), asked;
      }
      if tools.None? {
        var pages, cursors := Pages("tools/list", "tools", script);
        asked := cursors;
        if pages.Abandoned? {
          return Abandoned, asked;
        }
        if pages.r.Err? {
          return Done(Err(pages.r.error)), asked;
        }
        var found := Catalog(pages.r.value);
        if found.None? {
          return Done(Err(Protocol)), asked;
        }
        tools := found;
      }
      return Done(Ok(Visible(config, tools.value))), asked;
    }

    // The tools of a listing, in its order, each name once.
    ghost predicate Catalogs(items: seq<Json>, found: seq<Tool>) {
      && |found| == |items| && (forall i :: 0 <= i < |items| ==> config.toolOf(items[i]) == Some(found[i]))
      && forall i, j :: 0 <= i < j < |found| ==> found[i].name != found[j].name
    }

    method Catalog(items: seq<Json>) returns (r: Option<seq<Tool>>)
      ensures r.Some? ==> Catalogs(items, r.value)
      ensures r.None? ==> !exists found :: Catalogs(items, found)
    {
      var found: seq<Tool>, names: set<string> := [], {};
      for i := 0 to |items|
        invariant Catalogs(items[..i], found)
        invariant forall t <- found :: t.name in names
        invariant forall x <- names :: exists j :: 0 <= j < i && found[j].name == x
      {
        var tool := config.toolOf(items[i]);
        if tool.None? || tool.value.name in names {
          forall all: seq<Tool> ensures !Catalogs(items, all) {
            NoCatalog(items, found, i, all);
          }
          return None;
        }
        found := found + [tool.value];
        names := names + {tool.value.name};
      }
      assert items[..|items|] == items;
      return Some(found);
    }

    // A malformed or repeated tool refuses the whole listing.
    lemma NoCatalog(items: seq<Json>, found: seq<Tool>, i: nat, all: seq<Tool>)
      requires i < |items| && Catalogs(items[..i], found)
      requires config.toolOf(items[i]).None?
        || exists j :: 0 <= j < i && found[j].name == config.toolOf(items[i]).value.name
      ensures !Catalogs(items, all)
    {
      if config.toolOf(items[i]).Some? {
        var j :| 0 <= j < i && found[j].name == config.toolOf(items[i]).value.name;
        assert items[..i][j] == items[j] && config.toolOf(items[..i][j]) == Some(found[j]);
      }
    }

    // A tool call is dispatched only after every policy gate.
    method CallTool(name: string, arguments: Json, reason: Option<string>, breakGlass: Approval, approve: Approval,
        denied: Hook, env: Answers) returns (r: Outcome<Json>)
      requires Valid()
      modifies this`state, this`history
      ensures Valid()
      ensures history != old(history) ==>
        && old(state) == Ready && config.granted && arguments.Object?
        && exists t :: Discovered(t) && t.name == name && Passes(t, reason, breakGlass, approve)
      ensures history != old(history) <==>
        && old(state) == Ready && config.granted && arguments.Object? && tools.Some?
        && (exists n: nat :: FirstNamed(tools.value, name, n) && Passes(tools.value[n], reason, breakGlass, approve))
        && config.size(CallParams(name, arguments)) <= config.maxBytes && env.before == Fine
      ensures history != old(history) ==>
        var large := env.reply.Value? && config.size(env.reply.v) > config.maxBytes;
        var shaped := env.reply.Value? && CallShape(env.reply.v);
        r == if env.reply == Lost || env.after == Gone then Abandoned
          else if env.after == Refused then Done(Err(Unknown))
          else Done(ResultOf(CALL, env.reply, large, shaped))
      ensures history == old(history) ==> r.Abandoned? || r.r.Err?
      ensures history != old(history) ==>
        |history| > |old(history)|
          && history[..|old(history)| + 1] == old(history) + [Sent(CALL, CallParams(name, arguments))]
      ensures r.Done? && r.r.Ok? ==>
        && state == Ready && CallShape(r.r.value)
        && history == old(history) + [Sent(CALL, CallParams(name, arguments)), Settled(CALL)]
    {
      hide Orderly, Quiet, Greeted;
      var ready := CheckReady();
      if ready.Err? {
        return Done(Err(ready.error));
      }
      if !arguments.Object? {
        return Done(Err(Protocol));
      }
      var n := FindTool(name);
      if n.None? {
        return Done(Err(Policy));
      }
      var tool := tools.value[n.value];
      if !config.remoteReadOnly(tool) {
        return if denied == Gone then Abandoned else Done(Err(Policy));
      }
      if !config.allowed(name) {
        var asks := reason.Some? && Trim(reason.value) != "";
        if asks && breakGlass.Left? {
          return Abandoned;
        }
        if !asks || !breakGlass.Granted? {
          return if denied == Gone then Abandoned else Done(Err(Policy));
        }
      }
      if !tool.readOnly {
        if approve.Left? {
          return Abandoned;
        }
        if !approve.Granted? {
          return if denied == Gone then Abandoned else Done(Err(Policy));
        }
      }
      assert Discovered(tool);
      r := Exchange(CALL, CallParams(name, arguments), env);
    }

    // The policy gates of a tool: read-only for a remote host, allowlist or break-glass, approval.
    predicate Passes(t: Tool, reason: Option<string>, breakGlass: Approval, approve: Approval) {
      && config.remoteReadOnly(t)
      && (config.allowed(t.name) || (reason.Some? && Trim(reason.value) != "" && breakGlass == Granted))
      && (t.readOnly || approve == Granted)
    }

    ghost predicate Discovered(t: Tool)
      reads this`tools
    {
      tools.Some? && t in tools.value
    }

    predicate FirstNamed(tools: seq<Tool>, name: string, n: nat) {
      n < |tools| && tools[n].name == name && forall k :: 0 <= k < n ==> tools[k].name != name
    }

    // The first tool of this name.
    method FindTool(name: string) returns (n: Option<nat>)
      ensures n.None? <==> tools.None? || forall t <- tools.value :: t.name != name
      ensures n.Some? ==> tools.Some? && FirstNamed(tools.value, name, n.value)
    {
      if tools.None? {
        return None;
      }
      var i := 0;
      while i < |tools.value|
        invariant 0 <= i <= |tools.value| && forall k :: 0 <= k < i ==> tools.value[k].name != name
      {
        if tools.value[i].name == name {
          return Some(i);
        }
        i := i + 1;
      }
      return None;
    }
  }

  // ---- pages

  function CursorParams(cursor: Option<string>): Json {
    if cursor.None? then EMPTY else Object(map["cursor" := Str(cursor.value)])
  }

  // The cursor of the next page: a string that is not blank.
  function Continues(response: Json): Option<string> {
    var next := StrOr(At(response, "nextCursor"));
    if Trim(next) == "" then None else Some(Trim(next))
  }

  function NextOf(a: Answers): Option<string> {
    if a.reply.Value? then Continues(a.reply.v) else None
  }

  // Each request uses the cursor of the answer before it, and no cursor is used twice.
  ghost predicate FollowsCursors(asked: seq<Option<string>>, script: seq<Answers>)
    requires |asked| <= |script|
  {
    && (asked != [] ==> asked[0] == None)
    && (forall i :: 0 < i < |asked| ==>
      asked[i].Some? && script[i - 1].reply.Value? && Continues(script[i - 1].reply.v) == asked[i])
    && forall i, j :: 0 <= i < j < |asked| ==> asked[i] != asked[j]
  }

  lemma FollowsMore(asked: seq<Option<string>>, cursor: Option<string>, script: seq<Answers>)
    requires |asked| < |script| && FollowsCursors(asked, script)
    requires if asked == [] then cursor == None
      else cursor.Some? && script[|asked| - 1].reply.Value? && Continues(script[|asked| - 1].reply.v) == cursor
    requires forall i :: 0 < i < |asked| ==> asked[i] != cursor
    ensures FollowsCursors(asked + [cursor], script)
  {}

  function AllItems(script: seq<Answers>, field: string): seq<Json> {
    if script == [] then []
    else
      var last := script[|script| - 1].reply;
      AllItems(script[..|script| - 1], field) + (if last.Value? then ItemsOr(At(last.v, field)) else [])
  }

  lemma NoItems(field: string)
    ensures AllItems([], field) == []
  {}

  lemma ItemsMore(script: seq<Answers>, n: nat, field: string)
    requires n < |script| && script[n].reply.Value?
    ensures AllItems(script[..n + 1], field) == AllItems(script[..n], field) + ItemsOr(At(script[n].reply.v, field))
  {
    assert script[..n + 1][..n] == script[..n];
  }

  // What was written for these cursors, in order.
  ghost predicate WrittenFor(h: seq<Event>, operation: string, asked: seq<Option<string>>) {
    SentIn(h) == seq(|asked|, i requires 0 <= i < |asked| => Sent(operation, CursorParams(asked[i])))
  }

  function SentIn(h: seq<Event>): seq<Event> {
    if h == [] then []
    else SentIn(h[..|h| - 1]) + if h[|h| - 1].Sent? then [h[|h| - 1]] else []
  }

  lemma NothingWritten(operation: string, script: seq<Answers>)
    ensures WrittenFor([], operation, []) && FollowsCursors([], script)
  {}

  lemma SentOne(h: seq<Event>, e: Event)
    ensures SentIn(h + [e]) == SentIn(h) + if e.Sent? then [e] else []
  {
    assert (h + [e])[..|h|] == h;
  }

  lemma WrittenMore(
    start: seq<Event>, before: seq<Event>, after: seq<Event>, operation: string, asked: seq<Option<string>>,
    cursor: Option<string>)
    requires start <= before && WrittenFor(before[|start|..], operation, asked)
    requires var sent := Sent(operation, CursorParams(cursor));
      after == before + [sent] || after == before + [sent, Settled(operation)]
    ensures start <= after && WrittenFor(after[|start|..], operation, asked + [cursor])
  {
    var sent := Sent(operation, CursorParams(cursor));
    var h := before[|start|..];
    SentOne(h, sent);
    SentOne(h + [sent], Settled(operation));
    assert after[|start|..] == h + [sent] || after[|start|..] == h + [sent] + [Settled(operation)];
    var more := asked + [cursor];
    assert seq(|more|, i requires 0 <= i < |more| => Sent(operation, CursorParams(more[i])))
      == seq(|asked|, i requires 0 <= i < |asked| => Sent(operation, CursorParams(asked[i]))) + [sent];
  }

  lemma FreshOrderly()
    ensures Orderly([]) && Quiet([])
  {}
}
