/**
 The stream reassembly of a provider client (client.rs). Its fields always are what the fragments
 received so far describe, and the events it returns are exactly the deltas of those fragments.
 */
module StreamStates {
  import opened Wrappers
  import opened Jsons
  import opened OrderedMaps
  import opened StreamJournals
  import opened StreamBlocks
  import opened StreamParts

  datatype Error = ProtocolError | ProviderError

  const MAX_BYTES: nat := 16 * 1024 * 1024
  const USIZE_MAX: nat := 0xFFFF_FFFF_FFFF_FFFF
  const DONE := "[DONE]"

  class StreamState {
    const protocol: Protocol
    const codec: Codec
    var body: Json
    var tools: map<nat, Json>
    var argumentBuffers: map<nat, string>
    var text: string
    var reasoning: string
    var complete: bool
    var finishReason: Option<string>
    var bytes: nat
    var responseCallIds: map<string, string>
    var responseDeltas: set<Key>
    var responseItems: map<nat, Json>
    var responseFragments: map<Key, string>
    var archivedTools: seq<Json>
    var stoppedBlocks: set<nat>
    ghost var journal: Journal
    ghost var starts: map<nat, Json>
    ghost var received: seq<Json>         // the events so far, the terminal one excepted
    ghost var last: Json                  // the body before its parts were put in
    ghost var lastItems: map<nat, Json>   // the items before they were filled in
    ghost var terminal: Json              // the response of the terminal event

    ghost function ChatView(): ChatRun
      reads this`body, this`journal, this`finishReason
    {
      ChatRun(body, journal, finishReason)
    }

    ghost function MessageView(): Message
      reads this`body, this`starts, this`stoppedBlocks, this`journal
    {
      Message(body, starts, stoppedBlocks, journal)
    }

    ghost function PartsView(): Parts
      reads this`body, this`responseDeltas, this`responseCallIds, this`responseItems, this`journal
    {
      Parts(body, responseDeltas, responseCallIds, responseItems, journal)
    }

    ghost predicate ChatFields()
      reads this`journal, this`text, this`reasoning, this`tools, this`archivedTools
    {
      ChatMatches(journal, text, reasoning, tools, archivedTools)
    }

    ghost predicate MessageFields()
      reads this`body, this`starts, this`stoppedBlocks, this`journal, this`tools, this`argumentBuffers
    {
      BlocksMatch(MessageView(), tools, argumentBuffers, codec)
    }

    ghost predicate PartsFields()
      reads this`body, this`responseDeltas, this`responseCallIds, this`responseItems, this`journal,
        this`responseFragments
    {
      PartsMatch(PartsView(), responseFragments)
    }

    // The body handed over holds all that the fragments describe.
    ghost predicate Assembled()
      reads this
    {
      && codec.response(body, protocol).Some?
      && match protocol
        case Chat => finishReason.Some? && body == ChatFinal(last, text, reasoning, tools, archivedTools, finishReason)
        case Anthropic =>
          Finishable(MessageView().(body := last)) && body == With(last, "content", Array(Values(tools)))
        case Responses =>
          && responseItems == Completed(lastItems, responseFragments)
          && body == CompletedBody(last, terminal, responseItems)
    }

    ghost predicate Valid()
      reads this
    {
      && bytes <= MAX_BYTES
      && (complete ==> Assembled())
      && match protocol
        case Chat => ChatFields()
        case Anthropic => MessageFields()
        case Responses => PartsFields()
    }

    // What has been accumulated is what the events received so far amount to, as a whole.
    ghost predicate Followed()
      reads this
    {
      var body := if complete then last else body;
      match protocol
      case Chat => ChatFold(received, codec) == Some(ChatView().(body := body))
      case Anthropic => MessageFold(received, codec) == Some(MessageView().(body := body))
      case Responses =>
        var items := if complete then lastItems else responseItems;
        PartsRun(NO_PARTS, received) == Some(PartsView().(body := body, items := items))
    }

    constructor (protocol: Protocol, codec: Codec)
      ensures Followed() && received == []
      ensures Valid() && !complete && journal == NEW && this.protocol == protocol && this.codec == codec
      ensures bytes == 0 && body == EMPTY && finishReason == None && starts == map[] && stoppedBlocks == {}
      ensures responseDeltas == {} && responseItems == map[] && responseCallIds == map[]
    {
      this.protocol, this.codec := protocol, codec;
      body, tools, argumentBuffers, text, reasoning := EMPTY, map[], map[], "", "";
      complete, finishReason, bytes := false, None, 0;
      last, lastItems, terminal := EMPTY, map[], EMPTY;
      responseCallIds, responseDeltas, responseItems, responseFragments := map[], {}, map[], map[];
      archivedTools, stoppedBlocks, journal, starts, received := [], {}, NEW, map[], [];
      new;
      NothingYet();
      NoBlocks(EMPTY, codec);
      NoParts(EMPTY);
    }

    // ---- Chat

    method AddText(delta: string) returns (events: seq<ModelEvent>)
      requires ChatFields()
      modifies this`text, this`journal
      ensures ChatFields() && journal == LogText(old(journal), delta)
      ensures Emitted(journal.sent) == Emitted(old(journal).sent) + events
    {
      hide ChatMatches, Log, Emitted;
      if delta == "" {
        return [];
      }
      ghost var s := Sent(Text, delta, Some(TextDelta(delta)));
      TextLogged(journal, s, text, reasoning, tools, archivedTools);
      EmittedLog(journal, s);
      text := text + delta;
      journal := Log(journal, s);
      return [TextDelta(delta)];
    }

    method AddReasoning(delta: string) returns (events: seq<ModelEvent>)
      requires ChatFields()
      modifies this`reasoning, this`journal
      ensures ChatFields() && journal == LogReasoning(old(journal), delta)
      ensures Emitted(journal.sent) == Emitted(old(journal).sent) + events
    {
      hide ChatMatches, Log, Emitted;
      if delta == "" {
        return [];
      }
      ghost var s := Sent(Reasoning, delta, Some(ReasoningDelta(delta)));
      TextLogged(journal, s, text, reasoning, tools, archivedTools);
      EmittedLog(journal, s);
      reasoning := reasoning + delta;
      journal := Log(journal, s);
      return [ReasoningDelta(delta)];
    }

    // Updates the entry at index `i` in place: opens it, replaces its ID, or extends a field.
    method Put(i: nat, field: string, delta: string, event: Option<ModelEvent>)
      requires ChatFields() && field in {"call", "id", "name", "arguments"} && (field == "call" || i in tools)
      requires Announced(Sent(Entry(i, field), delta, event))
      modifies this`tools, this`journal
      ensures ChatFields() && journal == Log(old(journal), Sent(Entry(i, field), delta, event))
      ensures Emitted(journal.sent) == Emitted(old(journal).sent) + (if event.Some? then [event.value] else [])
      ensures i in tools
    {
      hide ChatMatches, Log, Emitted, ToolJson, Extended, With, Announced;
      LogField(journal, Sent(Entry(i, field), delta, event), text, reasoning, tools, archivedTools);
      var tool := if i in tools then tools[i] else ToolJson("", "", "");
      if field == "id" {
        tool := With(tool, "id", Str(delta));
      } else if field != "call" {
        tool := Extended(tool, field, delta);
      }
      tools := tools[i := tool];
      journal := Log(journal, Sent(Entry(i, field), delta, event));
    }

    // A new call ID at an index in use archives the entry there.
    method MakeRoom(i: nat, id: Json)
      requires ChatFields()
      modifies this`tools, this`archivedTools, this`journal
      ensures ChatFields() && Emitted(journal.sent) == Emitted(old(journal).sent)
      ensures journal == if Reused(id, CurrentId(old(journal), i)) then Archive(old(journal), i) else old(journal)
    {
      hide ChatMatches, Emitted, Archive, CurrentId, EntryOf, IsLive, ToolJson;
      LiveEntry(journal, text, reasoning, tools, archivedTools, i);
      if i in tools && Reused(id, StrOr(At(tools[i], "id"))) {
        ArchiveKeeps(journal, i, text, reasoning, tools, archivedTools);
        archivedTools := archivedTools + [tools[i]];
        tools := tools - {i};
        journal := Archive(journal, i);
      }
    }

    method IdOf(i: nat) returns (id: string)
      requires ChatFields() && i in tools
      ensures id == CurrentId(journal, i)
    {
      hide ChatMatches, CurrentId, EntryOf, IsLive, ToolJson;
      LiveEntry(journal, text, reasoning, tools, archivedTools, i);
      return StrOr(At(tools[i], "id"));
    }

    // One element of tool_calls.
    method Call(call: Json) returns (r: Result<seq<ModelEvent>, Error>)
      requires ChatFields()
      modifies this`tools, this`archivedTools, this`journal
      ensures r.Ok? <==> CallJournal(old(journal), call).Some?
      ensures r.Ok? ==> ChatFields() && journal == CallJournal(old(journal), call).value
      ensures r.Ok? ==> Emitted(journal.sent) == Emitted(old(journal).sent) + r.value
    {
      hide ChatFields, ChatMatches, Log, Emitted, CurrentId, Archive, Reused;
      var index := U64(At(call, "index"));
      if index.None? {
        return Err(ProtocolError);
      }
      var i, id := index.value, At(call, "id");
      MakeRoom(i, id);
      Put(i, "call", "", None);
      if id.Str? {
        Put(i, "id", id.text, None);
      }
      var name, arguments := At(At(call, "function"), "name"), At(At(call, "function"), "arguments");
      if name.Str? {
        Put(i, "name", name.text, None);
      }
      if !arguments.Str? {
        return Ok([]);
      }
      var callId := IdOf(i);
      if callId == "" {
        return Err(ProtocolError);
      }
      Put(i, "arguments", arguments.text, Some(ToolArgumentsDelta(callId, arguments.text)));
      return Ok([ToolArgumentsDelta(callId, arguments.text)]);
    }

    method Calls(calls: seq<Json>) returns (r: Result<seq<ModelEvent>, Error>)
      requires ChatFields()
      modifies this`tools, this`archivedTools, this`journal
      ensures r.Ok? <==> CallsJournal(old(journal), calls).Some?
      ensures r.Ok? ==> ChatFields() && journal == CallsJournal(old(journal), calls).value
      ensures r.Ok? ==> Emitted(journal.sent) == Emitted(old(journal).sent) + r.value
    {
      hide ChatFields, ChatMatches, Emitted, CallJournal;
      var events, n := [], 0;
      while n < |calls|
        invariant 0 <= n <= |calls|
        invariant ChatFields() && CallsJournal(old(journal), calls[..n]) == Some(journal)
        invariant Emitted(journal.sent) == Emitted(old(journal).sent) + events
      {
        CallsPrefix(old(journal), calls, n + 1);
        var more := Call(calls[n]);
        if more.Err? {
          return Err(ProtocolError);
        }
        events := events + more.value;
        n := n + 1;
      }
      assert calls[..n] == calls;
      return Ok(events);
    }

    // Reasoning, content and refusal of a chunk, in this order.
    method Texts(delta: Json) returns (events: seq<ModelEvent>)
      requires ChatFields()
      modifies this`text, this`reasoning, this`journal
      ensures ChatFields() && journal == TextsJournal(old(journal), delta, codec)
      ensures Emitted(journal.sent) == Emitted(old(journal).sent) + events
    {
      hide ChatMatches, Emitted, LogText, LogReasoning, ReasoningIn, Joined;
      events := AddReasoning(ReasoningIn(delta, codec));
      var content := AddText(StrOr(At(delta, "content")));
      TextIs(journal, text, reasoning, tools, archivedTools);
      var refusal := AddText(Introduced(StrOr(At(delta, "refusal")), text));
      events := events + content + refusal;
    }

    method Details(delta: Json)
      modifies this`body
      ensures body == ChoiceBody(old(body), delta)
    {
      if At(delta, "reasoning_opaque").Str? {
        body := With(body, "reasoning_opaque", At(delta, "reasoning_opaque"));
      }
      if At(delta, "reasoning_details").Array? {
        body := With(body, "reasoning_details",
          Array(ItemsOr(At(body, "reasoning_details")) + At(delta, "reasoning_details").items));
      }
    }

    method Choice(choice: Json) returns (r: Result<seq<ModelEvent>, Error>)
      requires ChatFields()
      modifies this`body, this`text, this`reasoning, this`tools, this`archivedTools, this`finishReason, this`journal
      ensures r.Ok? <==> ChoiceRun(old(ChatView()), choice, codec).Some?
      ensures r.Ok? ==> ChatFields() && ChatView() == ChoiceRun(old(ChatView()), choice, codec).value
      ensures r.Ok? ==> Emitted(journal.sent) == Emitted(old(journal).sent) + r.value
    {
      hide ChatFields, Emitted, CallsJournal, TextsJournal, ChoiceBody, FirstChoice;
      if !FirstChoice(choice) {
        return Err(ProtocolError);
      }
      var delta := At(choice, "delta");
      Details(delta);
      var texts := Texts(delta);
      var calls := Calls(ItemsOr(At(delta, "tool_calls")));
      if calls.Err? {
        return Err(ProtocolError);
      }
      if At(choice, "finish_reason").Str? {
        finishReason := Some(At(choice, "finish_reason").text);
      }
      return Ok(texts + calls.value);
    }

    method ChatEvent(event: Json) returns (r: Result<seq<ModelEvent>, Error>)
      requires ChatFields()
      modifies this`body, this`text, this`reasoning, this`tools, this`archivedTools, this`finishReason, this`journal
      ensures r.Ok? <==> ChatStep(old(ChatView()), event, codec).Some?
      ensures r.Ok? ==> ChatFields() && ChatView() == ChatStep(old(ChatView()), event, codec).value
      ensures r.Ok? ==> Emitted(journal.sent) == Emitted(old(journal).sent) + r.value
    {
      hide ChatFields, Emitted, ChoiceRun, HeadersOf;
      body := HeadersOf(body, event);
      if !At(event, "choices").Array? {
        return Err(ProtocolError);
      }
      var choices := At(event, "choices").items;
      ghost var start := ChatView();
      var events, n := [], 0;
      while n < |choices|
        invariant 0 <= n <= |choices|
        invariant ChatFields() && ChoicesRun(start, choices[..n], codec) == Some(ChatView())
        invariant Emitted(journal.sent) == Emitted(old(journal).sent) + events
      {
        ChoicesPrefix(start, choices, n + 1, codec);
        var more := Choice(choices[n]);
        if more.Err? {
          return Err(ProtocolError);
        }
        events := events + more.value;
        n := n + 1;
      }
      assert choices[..n] == choices;
      return Ok(events);
    }

    // ---- Anthropic

    // Adds one fragment to a block; of tool input it only extends the buffer.
    method Fragment(i: nat, field: string, delta: string, event: Option<ModelEvent>)
      requires MessageFields() && field in FIELDS && i in starts && i !in stoppedBlocks
      requires Announced(Sent(Block(i, field), delta, event))
      modifies this`tools, this`argumentBuffers, this`journal
      ensures MessageFields() && journal == Log(old(journal), Sent(Block(i, field), delta, event))
      ensures Emitted(journal.sent) == Emitted(old(journal).sent) + (if event.Some? then [event.value] else [])
    {
      hide Log, Emitted, With, IsBlock, BlockOwners, HasInput, Input, FieldPieces, Announced;
      ghost var s := Sent(Block(i, field), delta, event);
      ghost var m := MessageView();
      EmittedLog(journal, s);
      if field == "input" {
        FragmentKeeps(m, s, tools[i], tools, argumentBuffers, codec);
        argumentBuffers := argumentBuffers[i := (if i in argumentBuffers then argumentBuffers[i] else "") + delta];
        assert tools[i := tools[i]] == tools;
      } else {
        var block := With(tools[i], field,
          Str(if field == "encrypted_content" then delta else StrOr(At(tools[i], field)) + delta));
        FragmentKeeps(m, s, block, tools, argumentBuffers, codec);
        tools := tools[i := block];
      }
      journal := Log(journal, s);
      assert MessageView() == m.(journal := journal);
    }

    method BlockDelta(i: nat, delta: Json) returns (r: Result<seq<ModelEvent>, Error>)
      requires MessageFields() && i in starts && i !in stoppedBlocks
      modifies this`tools, this`argumentBuffers, this`journal
      ensures r.Ok? <==> BlockFragments(i, starts[i], delta).Some?
      ensures r.Ok? ==> MessageFields() && journal == LogAll(old(journal), BlockFragments(i, starts[i], delta).value)
      ensures r.Ok? ==> Emitted(journal.sent) == Emitted(old(journal).sent) + r.value
    {
      hide Emitted, BlockFragments, BlocksMatch, FieldPieces, Announced, LogAll, Log;
      SameFragments(MessageView(), i, tools, argumentBuffers, delta, codec);
      var fragments := BlockFragments(i, tools[i], delta);
      if fragments.None? {
        return Err(ProtocolError);
      }
      FragmentsBelong(i, tools[i], delta);
      var events, n, s := [], 0, fragments.value;
      LogNone(journal);
      while n < |s|
        invariant 0 <= n <= |s| && MessageFields()
        invariant journal == LogAll(old(journal), s[..n])
        invariant Emitted(journal.sent) == Emitted(old(journal).sent) + events
      {
        LogOneMore(old(journal), s, n);
        var f := s[n];
        assert f in s && f == Sent(Block(i, f.owner.field), f.delta, f.event);
        Fragment(i, f.owner.field, f.delta, f.event);
        events := events + (if f.event.Some? then [f.event.value] else []);
        n := n + 1;
      }
      assert s[..n] == s;
      return Ok(events);
    }

    // The end of a block: the tool input becomes what all its fragments parse to.
    method BlockStop(i: nat) returns (ok: bool)
      requires MessageFields() && i in starts && i !in stoppedBlocks
      modifies this`tools, this`argumentBuffers, this`stoppedBlocks
      ensures ok <==> !(HasInput(old(MessageView()), i) && Input(old(MessageView()), i, codec).None?)
      ensures ok ==> MessageFields() && stoppedBlocks == old(stoppedBlocks) + {i}
    {
      hide With, IsBlock, BlockOwners, FieldPieces, Join;
      ghost var m := MessageView();
      stoppedBlocks := stoppedBlocks + {i};
      if i in argumentBuffers {
        var input := codec.parse(argumentBuffers[i]);
        if input.None? {
          return false;
        }
        StopKeeps(m, i, With(tools[i], "input", input.value), tools, argumentBuffers, codec);
        tools := tools[i := With(tools[i], "input", input.value)];
        argumentBuffers := argumentBuffers - {i};
      } else {
        StopKeeps(m, i, tools[i], tools, argumentBuffers, codec);
        assert tools[i := tools[i]] == tools && argumentBuffers - {i} == argumentBuffers;
      }
      assert MessageView() == m.(stopped := stoppedBlocks);
      return true;
    }

    // One event other than message_stop.
    method AnthropicEvent(event: Json) returns (r: Result<seq<ModelEvent>, Error>)
      requires MessageFields()
      modifies this`body, this`starts, this`tools, this`argumentBuffers, this`stoppedBlocks, this`journal
      ensures r.Ok? <==> BlockStep(old(MessageView()), event, codec).Some?
      ensures r.Ok? ==> MessageFields() && MessageView() == BlockStep(old(MessageView()), event, codec).value
      ensures r.Ok? ==> Emitted(journal.sent) == Emitted(old(journal).sent) + r.value
    {
      hide BlocksMatch, BlockFragments, Emitted, Input, HasInput, DeltaBody, LogAll, Startable;
      var kind, index := At(event, "type"), U64(At(event, "index"));
      ghost var m := MessageView();
      if kind == Str("message_start") {
        var message := At(event, "message");
        if !Startable(message, body) {
          return Err(ProtocolError);
        }
        BodyKeeps(m, message, tools, argumentBuffers, codec);
        body := message;
      } else if kind == Str("content_block_start") {
        var block := At(event, "content_block");
        SameKeys(m, tools, argumentBuffers, codec);
        if !block.Object? || !Has(body, "id") || index.None? || index.value in tools {
          return Err(ProtocolError);
        }
        StartKeeps(m, index.value, block, tools, argumentBuffers, codec);
        tools := tools[index.value := block];
        starts := starts[index.value := block];
      } else if kind == Str("content_block_delta") {
        SameKeys(m, tools, argumentBuffers, codec);
        if index.None? || index.value in stoppedBlocks || index.value !in tools {
          return Err(ProtocolError);
        }
        r := BlockDelta(index.value, At(event, "delta"));
        return;
      } else if kind == Str("content_block_stop") {
        SameKeys(m, tools, argumentBuffers, codec);
        if index.None? || index.value !in tools || index.value in stoppedBlocks {
          return Err(ProtocolError);
        }
        var ok := BlockStop(index.value);
        if !ok {
          return Err(ProtocolError);
        }
      } else if kind == Str("message_delta") {
        BodyKeeps(m, DeltaBody(body, event), tools, argumentBuffers, codec);
        body := DeltaBody(body, event);
      } else if kind != Str("ping") {
        return Err(ProtocolError);
      }
      return Ok([]);
    }

    // ---- Responses

    method AddPart(ghost p: Parts, key: Key, s: Sent)
      requires PartsMatch(p, responseFragments) && p == PartsView() && s.owner == Part(key) && Announced(s)
      modifies this`responseDeltas, this`responseFragments, this`journal
      ensures PartsFields()
      ensures PartsView() == p.(deltas := p.deltas + {key}, journal := Log(p.journal, s))
      ensures Emitted(journal.sent) == Emitted(old(journal).sent) + (if s.event.Some? then [s.event.value] else [])
    {
      hide Emitted, Announced, PartsMatch, Log;
      PartLogged(p, p.(deltas := p.deltas + {key}, journal := Log(p.journal, s)), s, responseFragments);
      EmittedLog(journal, s);
      responseDeltas := responseDeltas + {key};
      var held := if key in responseFragments then responseFragments[key] else "";
      responseFragments := responseFragments[key := held + s.delta];
      journal := Log(journal, s);
    }

    // One event other than the terminal response.
    method ResponsesEvent(event: Json) returns (r: Result<seq<ModelEvent>, Error>)
      requires PartsFields()
      modifies this`body, this`responseDeltas, this`responseCallIds, this`responseItems, this`responseFragments,
        this`journal
      ensures r.Ok? <==> PartsStep(old(PartsView()), event).Some?
      ensures r.Ok? ==> PartsFields() && PartsView() == PartsStep(old(PartsView()), event).value
      ensures r.Ok? ==> Emitted(journal.sent) == Emitted(old(journal).sent) + r.value
    {
      hide KindOf, KeyOf, Emitted, PartsMatch, Log, Begun, Copied, ContentField, Announced;
      var kind, key := Type(event), KeyOf(event);
      ghost var p := PartsView();
      match kind
      case Progress =>
        var response := At(event, "response");
        SameParts(p, p.(body := Copied(body, response, ["id", "model", "metadata"])), responseFragments);
        body := Copied(body, response, ["id", "model", "metadata"]);
        return Ok([]);
      case Texts(done, refusal) =>
        var text := At(event, ContentField(kind));
        if done && key in responseDeltas {
          return Ok([]);
        }
        if !text.Str? {
          return Err(ProtocolError);
        }
        if done && text.text == "" {
          SameParts(p, p.(deltas := p.deltas + {key}), responseFragments);
          responseDeltas := responseDeltas + {key};
          return Ok([]);
        }
        BegunIsHeld(p, responseFragments, key);
        var shown := if refusal && (done || key !in responseFragments) then REFUSED + text.text else text.text;
        var s := TextSent(key, shown);
        SentAnnounced(key, shown, "");
        AddPart(p, key, s);
        return Ok([s.event.value]);
      case Arguments(done) =>
        var id, arguments := At(event, "item_id"), At(event, ContentField(kind));
        if done && key in responseDeltas {
          return Ok([]);
        }
        if !id.Str? || id.text !in responseCallIds || !arguments.Str? {
          return Err(ProtocolError);
        }
        var s := ArgumentsSent(key, responseCallIds[id.text], arguments.text);
        SentAnnounced(key, arguments.text, responseCallIds[id.text]);
        AddPart(p, key, s);
        return Ok([s.event.value]);
      case ItemChanged =>
        var item := At(event, "item");
        var id, callId := At(item, "id"), At(item, "call_id");
        if !item.Object? {
          return Err(ProtocolError);
        }
        responseItems := responseItems[key.index := item];
        if At(item, "type") == Str("function_call") {
          if !id.Str? || !callId.Str? {
            return Err(ProtocolError);
          }
          responseCallIds := responseCallIds[id.text := callId.text];
        }
        SameParts(p, PartsView(), responseFragments);
        return Ok([]);
      case Failed =>
        return Err(ProviderError);
      case _ =>
        return Ok([]);
    }

    // ---- completion

    // The loop over the fragments: an item for every index, arguments for calls without any.
    method FillArguments()
      modifies this`responseItems
      ensures responseItems == Fill(old(responseItems), KeysOf(responseFragments), responseFragments)
    {
      hide FillOne, Order, Keys, KeyLe;
      var keys, n := KeysOf(responseFragments), 0;
      while n < |keys|
        invariant 0 <= n <= |keys|
        invariant forall k <- keys[..n] :: k in responseFragments
        invariant responseItems == Fill(old(responseItems), keys[..n], responseFragments)
      {
        var k := keys[n];
        assert keys[..n + 1][..n] == keys[..n] && k in keys;
        FillOneIs(responseItems, k, responseFragments[k]);
        if k.index !in responseItems {
          responseItems := responseItems[k.index := Stub(k.reasoning)];
        }
        if LacksArguments(responseItems[k.index]) {
          responseItems := responseItems[k.index := With(responseItems[k.index], "arguments",
            Str(responseFragments[k]))];
        }
        n := n + 1;
      }
      assert keys[..n] == keys;
    }

    // The loop over the items: fragments for messages and reasoning without text.
    method FillParts()
      modifies this`responseItems
      ensures responseItems == map i | i in old(responseItems) ::
        WithParts(old(responseItems)[i], i, KeysOf(responseFragments), responseFragments)
    {
      hide WithParts, Order, Keys, KeyLe, KeysOf, Indexes;
      var keys, indexes, n := KeysOf(responseFragments), Indexes(responseItems), 0;
      ghost var was := responseItems;
      while n < |indexes|
        invariant 0 <= n <= |indexes| && responseItems.Keys == was.Keys
        invariant forall k :: 0 <= k < n ==>
          responseItems[indexes[k]] == WithParts(was[indexes[k]], indexes[k], keys, responseFragments)
        invariant forall k :: n <= k < |indexes| ==> responseItems[indexes[k]] == was[indexes[k]]
      {
        var i := indexes[n];
        assert i in indexes;
        responseItems := responseItems[i := WithParts(responseItems[i], i, keys, responseFragments)];
        n := n + 1;
      }
      forall i | i in was ensures responseItems[i] == WithParts(was[i], i, keys, responseFragments) {
        assert i in indexes;
      }
    }

    // Hands the body over; the stream is complete when a response can be made of it.
    method Finish() returns (r: Result<seq<ModelEvent>, Error>)
      modifies this`complete
      ensures r.Ok? <==> codec.response(body, protocol).Some?
      ensures r.Ok? ==> complete && r.value == Finale(codec.response(body, protocol).value)
      ensures r.Err? ==> complete == old(complete)
    {
      var response := codec.response(body, protocol);
      if response.None? {
        return Err(ProtocolError);
      }
      complete := true;
      var events, n := [], 0;
      while n < |response.value.items|
        invariant 0 <= n <= |response.value.items|
        invariant events == ItemsDone(response.value.items[..n])
      {
        assert response.value.items[..n + 1] == response.value.items[..n] + [response.value.items[n]];
        events := events + [ItemDone(response.value.items[n])];
        n := n + 1;
      }
      assert response.value.items[..n] == response.value.items;
      return Ok(events + [Complete(response.value)]);
    }

    method FinishChat() returns (r: Result<seq<ModelEvent>, Error>)
      requires Valid() && !complete && protocol == Chat
      modifies this`body, this`complete, this`last
      ensures r.Ok? <==>
        finishReason.Some?
          && codec.response(ChatFinal(old(body), text, reasoning, tools, archivedTools, finishReason), Chat).Some?
      ensures r.Ok? ==> Valid() && complete && r.value == Finale(codec.response(body, protocol).value)
      ensures last == old(body) || r.Err?
    {
      hide ChatMatches, ChatFinal, Finale;
      if finishReason.None? {
        return Err(ProtocolError);
      }
      last := body;
      body := ChatFinal(body, text, reasoning, tools, archivedTools, finishReason);
      r := Finish();
    }

    method FinishMessage() returns (r: Result<seq<ModelEvent>, Error>)
      requires Valid() && !complete && protocol == Anthropic
      modifies this`body, this`complete, this`last
      ensures r.Ok? <==>
        Finishable(old(MessageView()))
          && codec.response(With(old(body), "content", Array(Values(tools))), Anthropic).Some?
      ensures r.Ok? ==> Valid() && complete && r.value == Finale(codec.response(body, protocol).value)
      ensures last == old(body) || r.Err?
    {
      hide BlocksMatch, Finishable, With, Finale;
      FinishableIsEmpty(MessageView(), tools, argumentBuffers, codec);
      if !At(body, "id").Str? || !At(body, "stop_reason").Str? || argumentBuffers != map[] {
        return Err(ProtocolError);
      }
      last := body;
      BodyKeeps(MessageView(), With(body, "content", Array(Values(tools))), tools, argumentBuffers, codec);
      body := With(body, "content", Array(Values(tools)));
      r := Finish();
    }

    method FinishResponse(event: Json) returns (r: Result<seq<ModelEvent>, Error>)
      requires Valid() && !complete && protocol == Responses
      modifies this`body, this`responseItems, this`complete, this`last, this`lastItems, this`terminal
      ensures r.Ok? <==> At(event, "response").Object? && codec.response(CompletedBody(old(body), At(event, "response"),
        Completed(old(responseItems), responseFragments)), Responses).Some?
      ensures r.Ok? ==> Valid() && complete && r.value == Finale(codec.response(body, protocol).value)
      ensures r.Ok? ==> terminal == At(event, "response") && last == old(body) && lastItems == old(responseItems)
    {
      hide PartsMatch, Fill, WithParts, CompletedBody, KeysOf, Finale;
      var response := At(event, "response");
      if !response.Object? {
        return Err(ProtocolError);
      }
      last, lastItems, terminal := body, responseItems, response;
      ghost var p := PartsView();
      FillArguments();
      FillParts();
      body := CompletedBody(body, response, responseItems);
      SameParts(p, PartsView(), responseFragments);
      r := Finish();
    }

    // An event took the stream one step on, and its deltas were announced.
    twostate predicate Advanced(event: Json, events: seq<ModelEvent>)
      reads this
    {
      && !complete && Emitted(journal.sent) == Emitted(old(journal).sent) + events
      && match protocol
        case Chat => Some(ChatView()) == ChatStep(old(ChatView()), event, codec)
        case Anthropic => Some(MessageView()) == BlockStep(old(MessageView()), event, codec)
        case Responses => Some(PartsView()) == PartsStep(old(PartsView()), event)
    }

    // An event ended the stream: the items and the response made of the assembled body.
    twostate predicate Concluded(events: seq<ModelEvent>)
      reads this
    {
      && complete && journal == old(journal) && last == old(body)
      && (match protocol
        case Chat => ChatView().(body := last) == old(ChatView())
        case Anthropic => MessageView().(body := last) == old(MessageView())
        case Responses => PartsView().(body := last, items := lastItems) == old(PartsView()))
      && codec.response(body, protocol).Some? && events == Finale(codec.response(body, protocol).value)
    }

    // The events that are no error in this state.
    ghost predicate TakesEvent(event: Json)
      reads this`body, this`journal, this`finishReason, this`starts, this`stoppedBlocks, this`tools
      reads this`responseDeltas, this`responseCallIds, this`responseItems, this`responseFragments
    {
      match protocol
      case Chat => ChatStep(ChatView(), event, codec).Some?
      case Anthropic =>
        if At(event, "type") != Str("message_stop") then BlockStep(MessageView(), event, codec).Some?
        else
          Finishable(MessageView())
          && codec.response(With(body, "content", Array(Values(tools))), Anthropic).Some?
      case Responses =>
        if Name(event) !in {"response.completed", "response.incomplete"} then PartsStep(PartsView(), event).Some?
        else
          At(event, "response").Object? &&
          codec.response(CompletedBody(body, At(event, "response"), Completed(responseItems, responseFragments)),
            Responses).Some?
    }

    // The data that are no error in this state.
    ghost predicate Takes(data: string)
      reads this
    {
      if complete then protocol == Responses && data == "[DONE]"
      else
        bytes + |data| <= 16 * 1024 * 1024 &&
        if data == "[DONE]" then
          protocol == Chat && finishReason.Some?
          && codec.response(ChatFinal(body, text, reasoning, tools, archivedTools, finishReason), Chat).Some?
        else
          codec.parse(data).Some? && !codec.refused(codec.parse(data).value)
          && !(protocol == Responses && At(codec.parse(data).value, "type") == Str("error"))
          && TakesEvent(codec.parse(data).value)
    }

    method ChatJson(event: Json) returns (r: Result<seq<ModelEvent>, Error>)
      requires Valid() && !complete && protocol == Chat
      modifies this
      ensures bytes == old(bytes) && received == old(received) && (r.Ok? <==> old(TakesEvent(event)))
      ensures r.Ok? ==> Valid() && if EndsStream(event) then Concluded(r.value) else Advanced(event, r.value)
    {
      hide ChatMatches, ChatStep, Emitted, KindOf, Finale, Finishable, ChatFinal, CompletedBody, Completed;
      r := ChatEvent(event);
    }

    method MessageJson(event: Json) returns (r: Result<seq<ModelEvent>, Error>)
      requires Valid() && !complete && protocol == Anthropic
      modifies this
      ensures bytes == old(bytes) && received == old(received) && (r.Ok? <==> old(TakesEvent(event)))
      ensures r.Ok? ==> Valid() && if EndsStream(event) then Concluded(r.value) else Advanced(event, r.value)
    {
      hide BlocksMatch, BlockStep, Emitted, KindOf, Finale, Finishable, ChatFinal, CompletedBody, Completed;
      if At(event, "type") == Str("message_stop") {
        r := FinishMessage();
      } else {
        r := AnthropicEvent(event);
      }
    }

    method ResponseJson(event: Json) returns (r: Result<seq<ModelEvent>, Error>)
      requires Valid() && !complete && protocol == Responses
      modifies this
      ensures bytes == old(bytes) && received == old(received) && (r.Ok? <==> old(TakesEvent(event)))
      ensures r.Ok? ==> Valid() && if EndsStream(event) then Concluded(r.value) else Advanced(event, r.value)
    {
      EndNames(event);
      hide PartsMatch, PartsStep, Emitted, KindOf, Finale, Finishable, ChatFinal, CompletedBody, Completed, Name;
      if Type(event) == Ended {
        r := FinishResponse(event);
      } else {
        r := ResponsesEvent(event);
      }
    }

    method Dispatch(event: Json) returns (r: Result<seq<ModelEvent>, Error>)
      requires Valid() && !complete
      modifies this
      ensures bytes == old(bytes) && received == old(received) && (r.Ok? <==> old(TakesEvent(event)))
      ensures r.Ok? ==> Valid() && if EndsStream(event) then Concluded(r.value) else Advanced(event, r.value)
    {
      hide Valid, Concluded, Advanced, EndsStream, TakesEvent;
      match protocol
      case Chat => r := ChatJson(event);
      case Anthropic => r := MessageJson(event);
      case Responses => r := ResponseJson(event);
    }

    // The JSON of an event that reports no error.
    method Decode(data: string) returns (r: Result<Json, Error>)
      ensures r.Ok? <==>
        codec.parse(data).Some? && !codec.refused(codec.parse(data).value)
        && !(protocol == Responses && At(codec.parse(data).value, "type") == Str("error"))
      ensures r.Ok? ==> r.value == codec.parse(data).value
      ensures r.Err? ==> r.error == if codec.parse(data).None? then ProtocolError else ProviderError
    {
      var event := codec.parse(data);
      if event.None? {
        return Err(ProtocolError);
      }
      if protocol == Responses && At(event.value, "type") == Str("error") {
        return Err(ProviderError);
      }
      if codec.refused(event.value) {
        return Err(ProviderError);
      }
      return Ok(event.value);
    }

    // One decoded event of the stream.
    method Event(data: string) returns (r: Result<seq<ModelEvent>, Error>)
      requires Valid() && Followed()
      modifies this
      ensures r.Ok? ==> Valid() && Followed()
      ensures r.Ok? <==> old(Takes(data))
      ensures old(complete) ==> (r.Ok? <==> protocol == Responses && data == DONE)
      ensures old(complete) && r.Ok? ==> r.value == [] && complete && journal == old(journal) && body == old(body)
      ensures !old(complete) && r.Ok? ==> bytes == old(bytes) + |data|
      ensures !old(complete) && r.Ok? && complete ==>
        && journal == old(journal) && codec.response(body, protocol).Some?
        && r.value == Finale(codec.response(body, protocol).value)
      ensures r.Ok? && !complete ==> Emitted(journal.sent) == Emitted(old(journal).sent) + r.value
      ensures !old(complete) && r.Ok? && Ends(data) ==> Concluded(r.value) && received == old(received)
      ensures !old(complete) && r.Ok? && !Ends(data) ==>
        && codec.parse(data).Some? && Advanced(codec.parse(data).value, r.value)
        && received == old(received) + [codec.parse(data).value]
    {
      hide ChatMatches, BlocksMatch, PartsMatch, Emitted, KindOf, BlockStep, ChatStep, PartsStep, Finale, Finishable,
        ChatFinal, CompletedBody, Completed, ChatFold, MessageFold, PartsRun, TakesEvent;
      if complete {
        if protocol == Responses && data == DONE {
          return Ok([]);
        }
        return Err(ProtocolError);
      }
      bytes := if bytes + |data| > USIZE_MAX then USIZE_MAX else bytes + |data|;
      if bytes > MAX_BYTES {
        return Err(ProtocolError);
      }
      if data == DONE {
        if protocol != Chat {
          return Err(ProtocolError);
        }
        r := FinishChat();
        return;
      }
      var event := Decode(data);
      if event.Err? {
        return Err(event.error);
      }
      r := Dispatch(event.value);
      if r.Ok? && !EndsStream(event.value) {
        FoldsMore(received, event.value, codec);
        received := received + [event.value];
      }
    }

    // The event that ends a stream of this protocol.
    predicate EndsStream(event: Json) {
      match protocol
      case Chat => false
      case Anthropic => At(event, "type") == Str("message_stop")
      case Responses => Name(event) in {"response.completed", "response.incomplete"}
    }

    predicate Ends(data: string) {
      if data == DONE then protocol == Chat else codec.parse(data).Some? && EndsStream(codec.parse(data).value)
    }
  }

  lemma EndNames(event: Json)
    ensures Type(event) == Ended <==> Name(event) in {"response.completed", "response.incomplete"}
  {}

  function ItemsDone(items: seq<Json>): seq<ModelEvent> {
    seq(|items|, n requires 0 <= n < |items| => ItemDone(items[n]))
  }

  // The last events of a stream: its items, then the one completion.
  function Finale(response: Response): seq<ModelEvent> {
    ItemsDone(response.items) + [Complete(response)]
  }

  // The chat response: text, reasoning and every tool entry, the archived ones first.
  function ChatFinal(
    body: Json, text: string, reasoning: string, tools: map<nat, Json>, archived: seq<Json>, reason: Option<string>)
    : Json
  {
    var message := Object(map["content" := Str(text), "reasoning_content" := Str(reasoning),
      "reasoning_opaque" := At(body, "reasoning_opaque"), "reasoning_details" := At(body, "reasoning_details"),
      "tool_calls" := Array(archived + Values(tools))]);
    With(body, "choices", Array([Object(map["message" := message,
      "finish_reason" := if reason.Some? then Str(reason.value) else Null])]))
  }

  lemma FillOneIs(items: map<nat, Json>, key: Key, text: string)
    ensures var full := if key.index in items then items else items[key.index := Stub(key.reasoning)];
      FillOne(items, key, text) ==
        if LacksArguments(full[key.index]) then full[key.index := With(full[key.index], "arguments", Str(text))]
        else full
  {}

  // Each stream's fold over one more event.
  lemma FoldsMore(events: seq<Json>, event: Json, codec: Codec)
    ensures ChatFold(events + [event], codec) ==
      match ChatFold(events, codec) case None => None case Some(c) => ChatStep(c, event, codec)
    ensures MessageFold(events + [event], codec) ==
      match MessageFold(events, codec) case None => None case Some(m) => BlockStep(m, event, codec)
    ensures PartsRun(NO_PARTS, events + [event]) ==
      match PartsRun(NO_PARTS, events) case None => None case Some(p) => PartsStep(p, event)
  {
    hide ChatStep, BlockStep, PartsStep;
    assert (events + [event])[..|events|] == events;
  }

  // Appending to a string field of an entry's function.
  function Extended(tool: Json, field: string, more: string): Json {
    With(tool, "function", With(At(tool, "function"), field, Str(StrOr(At(At(tool, "function"), field)) + more)))
  }

  lemma LiveEntry(j: Journal, text: string, reasoning: string, tools: map<nat, Json>, archived: seq<Json>, i: nat)
    requires ChatMatches(j, text, reasoning, tools, archived)
    ensures i in tools <==> IsLive(j, i)
    ensures i in tools ==> tools[i] == EntryOf(j, i) && At(tools[i], "id") == Str(CurrentId(j, i))
    ensures i !in tools ==> EntryOf(j, i) == ToolJson("", "", "") && CurrentId(j, i) == ""
  {
    hide Pieces, Joined, Latest;
    if i !in tools {
      FreshEntry(j, i);
      ToolJsonId(CurrentId(j, i), Joined(j, Entry(i, "name")), Joined(j, Entry(i, "arguments")));
      ToolJsonId("", "", "");
    }
  }

  lemma ToolJsonId(id: string, name: string, arguments: string)
    ensures At(ToolJson(id, name, arguments), "id") == Str(id)
  {}

  lemma ToolJsonWith(id: string, name: string, arguments: string, more: string)
    ensures With(ToolJson(id, name, arguments), "id", Str(more)) == ToolJson(more, name, arguments)
    ensures Extended(ToolJson(id, name, arguments), "name", more) == ToolJson(id, name + more, arguments)
    ensures Extended(ToolJson(id, name, arguments), "arguments", more) == ToolJson(id, name, arguments + more)
  {
    var function_ := At(ToolJson(id, name, arguments), "function");
    assert function_ == Object(map["name" := Str(name), "arguments" := Str(arguments)]);
    assert With(function_, "name", Str(name + more)) ==
      Object(map["name" := Str(name + more), "arguments" := Str(arguments)]);
    assert With(function_, "arguments", Str(arguments + more)) ==
      Object(map["name" := Str(name), "arguments" := Str(arguments + more)]);
  }

  // One fragment of an entry, as the JSON value that holds the entry sees it.
  lemma LogField(j: Journal, s: Sent, text: string, reasoning: string, tools: map<nat, Json>, archived: seq<Json>)
    requires ChatMatches(j, text, reasoning, tools, archived)
    requires s.owner.Entry? && Announced(s)
    requires s.owner.field in {"call", "id", "name", "arguments"} && (s.owner.field == "call" || s.owner.index in tools)
    ensures var (i, field) := (s.owner.index, s.owner.field);
      var tool := if i in tools then tools[i] else ToolJson("", "", "");
      var tool := if field == "call" then tool else if field == "id" then With(tool, "id", Str(s.delta))
        else Extended(tool, field, s.delta);
      ChatMatches(Log(j, s), text, reasoning, tools[i := tool], archived)
    ensures Emitted(Log(j, s).sent) == Emitted(j.sent) + (if s.event.Some? then [s.event.value] else [])
  {
    hide Pieces, Joined, Latest, Log, ChatMatches, ToolsMatch, Extended, With, Announced, ToolJson, Emitted;
    var i := s.owner.index;
    LiveEntry(j, text, reasoning, tools, archived, i);
    EntryLogged(j, s, text, reasoning, tools, archived);
    EntryField(j, s);
    ToolJsonWith(Latest(j, Entry(i, "id")), Joined(j, Entry(i, "name")), Joined(j, Entry(i, "arguments")), s.delta);
    EmittedLog(j, s);
  }

  lemma TextIs(j: Journal, text: string, reasoning: string, tools: map<nat, Json>, archived: seq<Json>)
    requires ChatMatches(j, text, reasoning, tools, archived)
    ensures text == Joined(j, Text)
  {}

  lemma {:induction false} CallsPrefix(j: Journal, calls: seq<Json>, n: nat)
    requires 0 < n <= |calls|
    ensures CallsJournal(j, calls[..n]) ==
      match CallsJournal(j, calls[..n - 1]) case None => None case Some(k) => CallJournal(k, calls[n - 1])
    ensures CallsJournal(j, calls[..n]).None? ==> CallsJournal(j, calls).None?
    decreases |calls| - n
  {
    hide CallJournal;
    assert calls[..n][..n - 1] == calls[..n - 1];
    if n == |calls| {
      assert calls[..n] == calls;
    } else {
      CallsPrefix(j, calls, n + 1);
    }
  }

  lemma {:induction false} ChoicesPrefix(c: ChatRun, choices: seq<Json>, n: nat, codec: Codec)
    requires 0 < n <= |choices|
    ensures ChoicesRun(c, choices[..n], codec) ==
      match ChoicesRun(c, choices[..n - 1], codec) case None => None case Some(k) => ChoiceRun(k, choices[n - 1], codec)
    ensures ChoicesRun(c, choices[..n], codec).None? ==> ChoicesRun(c, choices, codec).None?
    decreases |choices| - n
  {
    hide ChoiceRun;
    assert choices[..n][..n - 1] == choices[..n - 1];
    if n == |choices| {
      assert choices[..n] == choices;
    } else {
      ChoicesPrefix(c, choices, n + 1, codec);
    }
  }

  // A started block keeps its type and ID, which decide what its deltas mean.
  lemma SameFragments(m: Message, i: nat, tools: map<nat, Json>, buffers: map<nat, string>, delta: Json, codec: Codec)
    requires BlocksMatch(m, tools, buffers, codec) && i in m.starts
    ensures i in tools && BlockFragments(i, tools[i], delta) == BlockFragments(i, m.starts[i], delta)
  {
    hide BlockOwners, FieldPieces, Join;
    assert IsBlock(m, i, tools[i], codec);
    OwnPieces(m, i, "type");
    OwnPieces(m, i, "id");
    assert At(tools[i], "type") == FieldOf(m, i, "type", codec) && At(tools[i], "id") == FieldOf(m, i, "id", codec);
  }

  lemma SameKeys(m: Message, tools: map<nat, Json>, buffers: map<nat, string>, codec: Codec)
    requires BlocksMatch(m, tools, buffers, codec)
    ensures tools.Keys == m.starts.Keys
  {}

  lemma LogNone(j: Journal)
    ensures LogAll(j, []) == j
  {
    assert j.sent + [] == j.sent;
  }

  lemma LogOneMore(j: Journal, s: seq<Sent>, n: nat)
    requires n < |s|
    ensures LogAll(j, s[..n + 1]) == Log(LogAll(j, s[..n]), s[n])
  {
    assert s[..n + 1] == s[..n] + [s[n]];
  }

  // Only the journal and the announced keys matter to the fragments.
  lemma SameParts(p: Parts, q: Parts, fragments: map<Key, string>)
    requires PartsMatch(p, fragments) && p.journal == q.journal && p.deltas <= q.deltas
    ensures PartsMatch(q, fragments)
  {
    hide Pieces, Joined, Announced;
    assert forall k :: Begun(q, k) <==> Begun(p, k);
  }

  lemma BegunIsHeld(p: Parts, fragments: map<Key, string>, key: Key)
    requires PartsMatch(p, fragments)
    ensures Begun(p, key) <==> key in fragments
  {}

  lemma SentAnnounced(key: Key, text: string, callId: string)
    ensures Announced(TextSent(key, text)) && Announced(ArgumentsSent(key, callId, text))
  {}
}
