/** What an MCP client writes and what it makes of the answers (client.rs), in literal JSON. */
module McpLaws {
  import opened Wrappers
  import opened Jsons
  import opened Text
  import opened Ordering
  import opened McpClients

  // ---- what is written

  lemma IntroductionLaw(c: Client)
    ensures c.Introduction() == Object(map[
      "protocolVersion" := Str("2025-03-26"), "capabilities" := Object(map[]),
      "clientInfo" := Object(map["name" := Str("adk-mcp"), "version" := Str(c.config.version)])])
    ensures INITIALIZE == "initialize" && INITIALIZED == "notifications/initialized" && CALL == "tools/call"
  {}

  lemma ParamsLaw(name: string, arguments: Json, cursor: string)
    ensures CallParams(name, arguments) == Object(map["name" := Str(name), "arguments" := arguments])
    ensures CursorParams(None) == Object(map[]) && CursorParams(Some(cursor)) == Object(map["cursor" := Str(cursor)])
  {}

  // ---- what answers mean

  predicate ObjectOrAbsent(v: Json, field: string) {
    Has(v, field) ==> At(v, field).Object?
  }

  // A server is accepted with the current protocol, or the previous one off the streamable transport, and
  // with capabilities that are objects; a capability is there if its field is.
  lemma NegotiationLaw(c: Client, v: Json)
    ensures c.Negotiable(v) <==>
      && (At(v, "protocolVersion") == Str("2025-03-26")
        || (At(v, "protocolVersion") == Str("2024-11-05") && !c.config.streamableHttp))
      && At(v, "capabilities").Object? && ObjectOrAbsent(At(v, "capabilities"), "tools")
      && ObjectOrAbsent(At(v, "capabilities"), "resources") && ObjectOrAbsent(At(v, "capabilities"), "prompts")
    ensures c.Negotiated(v) == Capabilities(Has(v, "tools"), Has(v, "resources"), Has(v, "prompts"))
  {
    var names := ["tools", "resources", "prompts"];
    assert names[0] in names && names[1] in names && names[2] in names;
  }

  // The result of a call has content that is an array and says whether it is an error by a boolean.
  lemma ShapeLaw(c: Client, v: Json)
    ensures c.CallShape(v) <==>
      At(v, "content").Array? && (Has(v, "isError") ==> At(v, "isError") in {Bool(true), Bool(false)})
        && c.config.validCall(v)
  {}

  // A value that fits, of the right shape, is the result; a remote or policy error is passed on with the
  // session intact; every other end leaves the outcome unknown, or the transport's own error.
  lemma ResultLaw(operation: string, v: Json, e: Error, large: bool, shaped: bool)
    ensures var good := !large && (operation != "tools/call" || shaped);
      && Reusable(operation, Value(v), large, shaped) == good
      && ResultOf(operation, Value(v), large, shaped) == if good then Ok(v) else Err(Unknown)
    ensures ResultOf(operation, Fails(e), large, shaped) == Err(e)
    ensures Reusable(operation, Fails(e), large, shaped) <==> e == Policy || exists code :: e == Remote(code)
    ensures ResultOf(operation, TimedOut, large, shaped) == Err(Unknown)
    ensures !Reusable(operation, TimedOut, large, shaped)
    ensures !Reusable(operation, Lost, large, shaped)
  {
    if e.Remote? {
      assert e == Remote(e.code);
    }
  }

  // A cursor names the next page, without the white space around it, unless there is nothing else in it.
  lemma CursorLaw(v: Json)
    ensures NextOf(Answers(Fine, Value(v), Fine)) ==
      match At(v, "nextCursor")
      case Str(t) => if Trim(t) == "" then None else Some(Trim(t))
      case _ => None
  {
    assert Trim("") == "";
  }

  // ---- which tools pass

  // A tool a host may call: read-only at its origin, on the list or let through for a reason, and approved
  // unless it only reads.
  lemma GateLaw(c: Client, t: Tool, reason: Option<string>, breakGlass: Approval, approve: Approval)
    ensures c.Passes(t, reason, breakGlass, approve) <==>
      && c.config.remoteReadOnly(t) && (t.readOnly || approve == Granted)
      && (c.config.allowed(t.name) || (breakGlass == Granted && reason != None && Trim(reason.value) != ""))
  {}

  // The tools shown are those on the list and read-only at their origin, by qualified name.
  lemma VisibleLaw(config: Config, catalog: seq<Tool>)
    ensures forall t :: t in Visible(config, catalog) <==>
      t in catalog && config.allowed(t.name) && config.remoteReadOnly(t)
    ensures forall i, j :: 0 <= i < j < |Visible(config, catalog)| ==>
      TextLe(config.qualified(Visible(config, catalog)[i]), config.qualified(Visible(config, catalog)[j]))
  {
    forall t ensures t in Visible(config, catalog) <==>
      t in catalog && config.allowed(t.name) && config.remoteReadOnly(t)
    {
      VisibleIs(config, catalog, t);
    }
    var le := (a: Tool, b: Tool) => TextLe(config.qualified(a), config.qualified(b));
    forall x, y ensures le(x, y) || le(y, x) {
      TextTotal(config.qualified(x), config.qualified(y));
    }
    forall x, y, z | le(x, y) && le(y, z) ensures le(x, z) {
      TextTransitive(config.qualified(x), config.qualified(y), config.qualified(z));
    }
    SortSorts(le, Filter((t: Tool) => config.allowed(t.name) && config.remoteReadOnly(t), catalog));
  }
}
