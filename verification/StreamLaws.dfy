/**
 What each chunk of a chat stream and each event of an Anthropic stream does, by its literal fields
 (client.rs): the deltas a caller sees and the entry or block they extend.
 */
module StreamLaws {
  import opened Wrappers
  import opened Jsons
  import opened OrderedMaps
  import opened StreamJournals
  import opened StreamBlocks
  import opened StreamStates

  // ---- chat: texts

  // A field's text, if it has one that is not empty.
  function TextAt(v: Json, field: string): string {
    match At(v, field) case Str(t) => t case _ => ""
  }

  // The first of the three reasoning fields with a text, or else the text of the details.
  function ReasoningAt(delta: Json, codec: Codec): string {
    if TextAt(delta, "reasoning") != "" then TextAt(delta, "reasoning")
    else if TextAt(delta, "reasoning_content") != "" then TextAt(delta, "reasoning_content")
    else if TextAt(delta, "reasoning_text") != "" then TextAt(delta, "reasoning_text")
    else codec.detailsText(At(delta, "reasoning_details"))
  }

  function Said(text: string): seq<ModelEvent> {
    if text == "" then [] else [TextDelta(text)]
  }

  function Thought(text: string): seq<ModelEvent> {
    if text == "" then [] else [ReasoningDelta(text)]
  }

  lemma LogTextIs(j: Journal, text: string)
    ensures Emitted(LogText(j, text).sent) == Emitted(j.sent) + Said(text)
    ensures Joined(LogText(j, text), Text) == Joined(j, Text) + text
    ensures Joined(LogText(j, text), Reasoning) == Joined(j, Reasoning)
  {
    hide Joined, Emitted;
    if text != "" {
      var s := Sent(Text, text, Some(TextDelta(text)));
      EmittedLog(j, s);
      LogIs(j, s, Text);
      LogIs(j, s, Reasoning);
    } else {
      assert Joined(j, Text) + "" == Joined(j, Text);
      assert Emitted(j.sent) + [] == Emitted(j.sent);
    }
  }

  lemma LogReasoningIs(j: Journal, text: string)
    ensures Emitted(LogReasoning(j, text).sent) == Emitted(j.sent) + Thought(text)
    ensures Joined(LogReasoning(j, text), Reasoning) == Joined(j, Reasoning) + text
    ensures Joined(LogReasoning(j, text), Text) == Joined(j, Text)
  {
    hide Joined, Emitted;
    if text != "" {
      var s := Sent(Reasoning, text, Some(ReasoningDelta(text)));
      EmittedLog(j, s);
      LogIs(j, s, Text);
      LogIs(j, s, Reasoning);
    } else {
      assert Joined(j, Reasoning) + "" == Joined(j, Reasoning);
      assert Emitted(j.sent) + [] == Emitted(j.sent);
    }
  }

  // A choice's texts: its reasoning, its content, and its refusal, which is introduced as one where no
  // text came before it. They are announced in this order and kept as announced.
  lemma TextsLaw(j: Journal, delta: Json, codec: Codec)
    ensures var k := TextsJournal(j, delta, codec);
      var (thought, content) := (ReasoningAt(delta, codec), TextAt(delta, "content"));
      var refusal := TextAt(delta, "refusal");
      var shown := if refusal != "" && Joined(j, Text) == "" && content == ""
        then "The model refused to respond: " + refusal else refusal;
      && Emitted(k.sent) == Emitted(j.sent) + Thought(thought) + Said(content) + Said(shown)
      && Joined(k, Text) == Joined(j, Text) + content + shown && Joined(k, Reasoning) == Joined(j, Reasoning) + thought
  {
    hide Joined, Emitted, LogText, LogReasoning;
    var a := LogReasoning(j, ReasoningIn(delta, codec));
    LogReasoningIs(j, ReasoningIn(delta, codec));
    var b := LogText(a, StrOr(At(delta, "content")));
    LogTextIs(a, StrOr(At(delta, "content")));
    LogTextIs(b, Introduced(StrOr(At(delta, "refusal")), Joined(b, Text)));
    assert Joined(a, Text) + "" == Joined(a, Text);
  }

  // ---- chat: tool calls

  // A call entry as it is accumulated.
  datatype Call = Call(id: string, name: string, arguments: string)

  function CallAt(j: Journal, i: nat): Call {
    Call(Latest(j, Entry(i, "id")), Joined(j, Entry(i, "name")), Joined(j, Entry(i, "arguments")))
  }

  // Another ID at an index begins a new call; a fragment's ID replaces the one there, its name and its
  // arguments are appended.
  function Extended(c: Call, id: Json, name: Json, arguments: Json): Call {
    var c := if id.Str? && id.text != "" && c.id != "" && c.id != id.text then Call("", "", "") else c;
    Call(if id.Str? then id.text else c.id,
      c.name + (if name.Str? then name.text else ""),
      c.arguments + (if arguments.Str? then arguments.text else ""))
  }

  lemma LogCallIs(j: Journal, i: nat, field: string, delta: string, event: Option<ModelEvent>)
    requires field in {"call", "id", "name", "arguments"}
    ensures var k := Log(j, Sent(Entry(i, field), delta, event));
      var c := CallAt(j, i);
      && CallAt(k, i) == Call(if field == "id" then delta else c.id,
        c.name + (if field == "name" then delta else ""), c.arguments + (if field == "arguments" then delta else ""))
      && (forall x: nat :: x != i ==> CallAt(k, x) == CallAt(j, x))
      && Emitted(k.sent) == Emitted(j.sent) + (if event.Some? then [event.value] else [])
  {
    hide Joined, Latest, Emitted, Log;
    var s := Sent(Entry(i, field), delta, event);
    forall x: nat, f: string
      ensures Joined(Log(j, s), Entry(x, f)) ==
        if x == i && f == field then Joined(j, Entry(x, f)) + delta else Joined(j, Entry(x, f))
      ensures Latest(Log(j, s), Entry(x, f)) == if x == i && f == field then delta else Latest(j, Entry(x, f))
    {
      LogIs(j, s, Entry(x, f));
    }
    EmittedLog(j, s);
    assert Joined(j, Entry(i, "name")) + "" == Joined(j, Entry(i, "name"));
    assert Joined(j, Entry(i, "arguments")) + "" == Joined(j, Entry(i, "arguments"));
  }

  lemma ArchiveCallIs(j: Journal, i: nat)
    requires ChatOwners(j)
    ensures CallAt(Archive(j, i), i) == Call("", "", "")
    ensures forall x: nat :: x != i ==> CallAt(Archive(j, i), x) == CallAt(j, x)
    ensures Emitted(Archive(j, i).sent) == Emitted(j.sent)
  {
    hide ChatOwners, Archive, Pieces;
    ArchiveCounts(j, i);
    forall x: nat, f: string
      ensures Pieces(Archive(j, i).sent, Entry(x, f)) == if x == i then [] else Pieces(j.sent, Entry(x, f))
    {
      ArchivePieces(j, i, Entry(x, f));
    }
  }

  // One fragment of a call: it needs an index, and arguments need an ID, under which they are announced.
  lemma CallLaw(j: Journal, call: Json)
    requires ChatOwners(j)
    ensures var (index, id) := (At(call, "index"), At(call, "id"));
      var (name, arguments) := (At(At(call, "function"), "name"), At(At(call, "function"), "arguments"));
      if !index.Number? || !(0 <= index.n <= 0xFFFF_FFFF_FFFF_FFFF) then CallJournal(j, call) == None
      else
        var c := Extended(CallAt(j, index.n), id, name, arguments);
        if arguments.Str? && c.id == "" then CallJournal(j, call) == None
        else
          CallJournal(j, call).Some? &&
          var k := CallJournal(j, call).value;
          && CallAt(k, index.n) == c && (forall x: nat :: x != index.n ==> CallAt(k, x) == CallAt(j, x))
          && Emitted(k.sent) == Emitted(j.sent) +
            if arguments.Str? then [ToolArgumentsDelta(c.id, arguments.text)] else []
  {
    hide Joined, Latest, Emitted, Log, Archive, ChatOwners;
    var index := At(call, "index");
    if index.Number? && 0 <= index.n <= 0xFFFF_FFFF_FFFF_FFFF {
      var (i, id) := (index.n, At(call, "id"));
      var (name, arguments) := (At(At(call, "function"), "name"), At(At(call, "function"), "arguments"));
      var taken := Reused(id, CurrentId(j, i));
      if taken { ArchiveCallIs(j, i); }
      var a := if taken then Archive(j, i) else j;
      LogCallIs(a, i, "call", "", None);
      var b := Log(a, Sent(Entry(i, "call"), "", None));
      if id.Str? { LogCallIs(b, i, "id", id.text, None); }
      var c := if id.Str? then Log(b, Sent(Entry(i, "id"), id.text, None)) else b;
      if name.Str? { LogCallIs(c, i, "name", name.text, None); }
      var d := if name.Str? then Log(c, Sent(Entry(i, "name"), name.text, None)) else c;
      if arguments.Str? {
        LogCallIs(d, i, "arguments", arguments.text, Some(ToolArgumentsDelta(CurrentId(d, i), arguments.text)));
      }
      assert CallJournal(j, call) ==
        if !arguments.Str? then Some(d)
        else if CurrentId(d, i) == "" then None
        else Some(Log(d, Sent(Entry(i, "arguments"), arguments.text,
          Some(ToolArgumentsDelta(CurrentId(d, i), arguments.text)))));
      hide CallJournal;
      assert forall t: string :: t + "" == t;
      assert forall t: seq<ModelEvent> :: t + [] == t;
    }
  }

  // ---- chat: choices and chunks

  // Only the first choice is read. Of its fields besides texts and calls the opaque reasoning is replaced,
  // the reasoning details accumulate, and a finish reason is kept.
  lemma ChoiceLaw(c: ChatRun, choice: Json, codec: Codec)
    ensures At(choice, "index").Number? && 0 < At(choice, "index").n <= 0xFFFF_FFFF_FFFF_FFFF ==>
      ChoiceRun(c, choice, codec) == None
    ensures ChoiceRun(c, choice, codec).Some? ==>
      var (delta, d) := (At(choice, "delta"), ChoiceRun(c, choice, codec).value);
      var (hidden, details) := (At(delta, "reasoning_opaque"), At(delta, "reasoning_details"));
      && d.finish == (if At(choice, "finish_reason").Str? then Some(At(choice, "finish_reason").text) else c.finish)
      && At(d.body, "reasoning_opaque") == (if hidden.Str? then hidden else At(c.body, "reasoning_opaque"))
      && (if details.Array?
          then At(d.body, "reasoning_details") == Array(ItemsOr(At(c.body, "reasoning_details")) + details.items)
          else At(d.body, "reasoning_details") == At(c.body, "reasoning_details"))
      && forall f :: f !in {"reasoning_opaque", "reasoning_details"} ==> At(d.body, f) == At(c.body, f)
    ensures !(At(choice, "index").Number? && 0 < At(choice, "index").n <= 0xFFFF_FFFF_FFFF_FFFF) ==>
      var calls := At(At(choice, "delta"), "tool_calls");
      var j := TextsJournal(c.journal, At(choice, "delta"), codec);
      var k := CallsJournal(j, if calls.Array? then calls.items else []);
      if k.None? then ChoiceRun(c, choice, codec).None?
      else ChoiceRun(c, choice, codec).Some? && ChoiceRun(c, choice, codec).value.journal == k.value
  {
    hide TextsJournal, CallsJournal;
  }

  lemma CopiedField(body: Json, from: Json, keys: seq<string>, f: string)
    ensures At(Copied(body, from, keys), f) == if f in keys && Has(from, f) then At(from, f) else At(body, f)
  {
    if keys != [] {
      CopiedField(body, from, keys[..|keys| - 1], f);
      assert keys == keys[..|keys| - 1] + [keys[|keys| - 1]];
    }
  }

  // A chunk's header fields replace earlier ones, its usage if it is one; a chunk must have choices.
  lemma ChunkLaw(c: ChatRun, event: Json, codec: Codec, f: string)
    ensures !At(event, "choices").Array? ==> ChatStep(c, event, codec) == None
    ensures At(event, "choices").Array? ==>
      var headed := HeadersOf(c.body, event);
      ChatStep(c, event, codec) == ChoicesRun(c.(body := headed), At(event, "choices").items, codec)
      && At(headed, f) ==
        if f == "usage" && At(event, "usage").Object? then At(event, "usage")
        else if f in {"id", "model", "metadata", "end_turn"} && Has(event, f) then At(event, f)
        else At(c.body, f)
  {
    hide ChoicesRun;
    CopiedField(c.body, event, ["id", "model", "metadata", "end_turn"], f);
  }

  // The end of a chat stream: the message with all that was said and called, the archived calls first.
  lemma ChatFinalLaw(
    body: Json, text: string, reasoning: string, tools: map<nat, Json>, archived: seq<Json>, reason: Option<string>)
    ensures var final := ChatFinal(body, text, reasoning, tools, archived, reason);
      && (forall f :: f != "choices" ==> At(final, f) == At(body, f))
      && At(final, "choices").Array? && |At(final, "choices").items| == 1 &&
      var choice := At(final, "choices").items[0];
      var message := At(choice, "message");
      && At(choice, "finish_reason") == (if reason.Some? then Str(reason.value) else Null)
      && At(message, "content") == Str(text) && At(message, "reasoning_content") == Str(reasoning)
      && At(message, "reasoning_opaque") == At(body, "reasoning_opaque")
      && At(message, "reasoning_details") == At(body, "reasoning_details")
      && At(message, "tool_calls") == Array(archived + Values(tools))
  {}

  // A completed stream ends with its items, one by one, and the response.
  lemma FinaleLaw(response: Response)
    ensures var (n, last) := (|response.items|, Finale(response));
      && |last| == n + 1 && last[n] == Complete(response)
      && forall i :: 0 <= i < n ==> last[i] == ItemDone(response.items[i])
  {}

  // ---- Anthropic

  // A message starts once, with an ID, and with usage only if that is an object.
  lemma MessageStartLaw(m: Message, event: Json, codec: Codec)
    requires At(event, "type") == Str("message_start")
    ensures var message := At(event, "message");
      BlockStep(m, event, codec) ==
        if message.Object? && At(message, "id").Str? && !Has(m.body, "id")
          && (Has(message, "usage") ==> At(message, "usage").Object?)
        then Some(m.(body := message)) else None
  {}

  // A block starts under its index, once, in a message that has started.
  lemma BlockStartLaw(m: Message, event: Json, i: nat, codec: Codec)
    requires At(event, "type") == Str("content_block_start")
    requires i <= 0xFFFF_FFFF_FFFF_FFFF && At(event, "index") == Number(i)
    ensures BlockStep(m, event, codec) ==
      if At(event, "content_block").Object? && Has(m.body, "id") && i !in m.starts
      then Some(m.(starts := m.starts[i := At(event, "content_block")])) else None
  {}

  // No block event does without an index, and deltas and the stop are for a block that is running.
  lemma BlockIndexLaw(m: Message, event: Json, codec: Codec)
    requires At(event, "type") in {
      Str("content_block_start"), Str("content_block_delta"), Str("content_block_stop")}
    ensures !At(event, "index").Number? ==> BlockStep(m, event, codec) == None
    ensures
      At(event, "type") != Str("content_block_start") && At(event, "index").Number?
      && (At(event, "index").n < 0 || At(event, "index").n !in m.starts || At(event, "index").n in m.stopped) ==>
      BlockStep(m, event, codec) == None
  {}

  // A field of a block grows by a text, announced by an event or by none.
  function Grown(m: Message, i: nat, field: string, text: string, announced: Option<ModelEvent>): Message {
    m.(journal := Journal(m.journal.sent + [Sent(Block(i, field), text, announced)], m.journal.archived))
  }

  // A delta of a running block.
  predicate DeltaOf(m: Message, event: Json, i: nat, kind: string) {
    && At(event, "type") == Str("content_block_delta") && At(event, "index") == Number(i)
    && i <= 0xFFFF_FFFF_FFFF_FFFF && i in m.starts && i !in m.stopped && At(At(event, "delta"), "type") == Str(kind)
  }

  lemma TextDeltaLaw(m: Message, event: Json, i: nat, codec: Codec)
    ensures DeltaOf(m, event, i, "text_delta") ==>
      BlockStep(m, event, codec) ==
        match At(At(event, "delta"), "text")
        case Str(t) => Some(Grown(m, i, "text", t, Some(TextDelta(t))))
        case _ => None
    ensures DeltaOf(m, event, i, "thinking_delta") ==>
      BlockStep(m, event, codec) ==
        match At(At(event, "delta"), "thinking")
        case Str(t) => Some(Grown(m, i, "thinking", t, Some(ReasoningDelta(t))))
        case _ => None
    ensures DeltaOf(m, event, i, "signature_delta") ==>
      BlockStep(m, event, codec) ==
        match At(At(event, "delta"), "signature")
        case Str(t) => Some(Grown(m, i, "signature", t, None))
        case _ => None
  {}

  // Input is announced under the ID the block started with.
  lemma InputDeltaLaw(m: Message, event: Json, i: nat, codec: Codec)
    requires DeltaOf(m, event, i, "input_json_delta")
    ensures BlockStep(m, event, codec) ==
      match At(At(event, "delta"), "partial_json")
      case Str(t) =>
        (match At(m.starts[i], "id")
        case Str(id) => Some(Grown(m, i, "input", t, Some(ToolArgumentsDelta(id, t))))
        case _ => None)
      case _ => None
  {}

  // Compaction is for compaction blocks; its encrypted content counts if there is any.
  lemma CompactionLaw(m: Message, event: Json, i: nat, codec: Codec)
    ensures DeltaOf(m, event, i, "compaction_delta") ==>
      var (content, encrypted) :=
        (TextAt(At(event, "delta"), "content"), TextAt(At(event, "delta"), "encrypted_content"));
      var n := Grown(m, i, "content", content, None);
      BlockStep(m, event, codec) ==
        if At(m.starts[i], "type") != Str("compaction") then None
        else Some(if encrypted == "" then n else Grown(n, i, "encrypted_content", encrypted, None))
    ensures DeltaOf(m, event, i, "compaction_encrypted_content") ==>
      BlockStep(m, event, codec) ==
        match At(At(event, "delta"), "encrypted_content")
        case Str(t) => Some(Grown(m, i, "encrypted_content", t, None))
        case _ => None
  {
    var (content, encrypted) :=
      (TextAt(At(event, "delta"), "content"), TextAt(At(event, "delta"), "encrypted_content"));
    var (x, y) := (Sent(Block(i, "content"), content, None), Sent(Block(i, "encrypted_content"), encrypted, None));
    assert m.journal.sent + [x, y] == m.journal.sent + [x] + [y];
  }

  lemma OtherDeltaLaw(m: Message, event: Json, codec: Codec)
    requires At(event, "type") == Str("content_block_delta")
    requires At(At(event, "delta"), "type") !in {Str("text_delta"), Str("thinking_delta"), Str("signature_delta"),
      Str("compaction_delta"), Str("compaction_encrypted_content"), Str("input_json_delta")}
    ensures BlockStep(m, event, codec) == None
  {}

  // A block stops once, and its input, if it got any, must be JSON.
  lemma BlockStopLaw(m: Message, event: Json, i: nat, codec: Codec)
    requires At(event, "type") == Str("content_block_stop") && At(event, "index") == Number(i)
    requires i <= 0xFFFF_FFFF_FFFF_FFFF && i in m.starts && i !in m.stopped
    ensures var pieces := Pieces(m.journal.sent, Block(i, "input"));
      BlockStep(m, event, codec) ==
        if pieces != [] && codec.parse(Join(pieces)) == None then None
        else Some(m.(stopped := m.stopped + {i}))
  {}

  // A message delta sets the stop reason, null if it has none, the end of turn if it has one, and adds to
  // the usage field by field.
  lemma MessageDeltaLaw(m: Message, event: Json, codec: Codec, f: string)
    requires At(event, "type") == Str("message_delta")
    ensures BlockStep(m, event, codec).Some?
    ensures var n := BlockStep(m, event, codec).value;
      var (delta, usage) := (At(event, "delta"), At(event, "usage"));
      && n == m.(body := n.body)
      && (f !in {"usage", "stop_reason", "end_turn"} ==> At(n.body, f) == At(m.body, f))
      && At(n.body, "stop_reason") == At(delta, "stop_reason")
      && At(n.body, "end_turn") == (if Has(delta, "end_turn") then At(delta, "end_turn") else At(m.body, "end_turn"))
      && (usage.Object? && usage.fields != map[] ==>
        At(At(n.body, "usage"), f) == if f in usage.fields then usage.fields[f] else At(At(m.body, "usage"), f))
      && (!usage.Object? || usage.fields == map[] ==> At(n.body, "usage") == At(m.body, "usage"))
  {
    var delta := At(event, "delta");
    var usage := At(event, "usage");
    var a := if usage.Object? && usage.fields != map[] then With(m.body, "usage", Merged(At(m.body, "usage"), usage))
      else m.body;
    var b := With(a, "stop_reason", At(delta, "stop_reason"));
    CopiedField(b, delta, ["end_turn"], f);
    CopiedField(b, delta, ["end_turn"], "usage");
    CopiedField(b, delta, ["end_turn"], "stop_reason");
    CopiedField(b, delta, ["end_turn"], "end_turn");
    assert BlockStep(m, event, codec) == Some(m.(body := Copied(b, delta, ["end_turn"])));
    hide BlockStep, Copied;
  }

  lemma OtherEventLaw(m: Message, event: Json, codec: Codec)
    ensures At(event, "type") == Str("ping") ==> BlockStep(m, event, codec) == Some(m)
    ensures
      At(event, "type") !in {Str("message_start"), Str("content_block_start"), Str("content_block_delta"),
        Str("content_block_stop"), Str("message_delta"), Str("ping")} ==>
      BlockStep(m, event, codec) == None
  {}

  // A message can end once it has an ID and a stop reason and every block with input has stopped.
  lemma FinishLaw(m: Message)
    ensures Finishable(m) <==>
      && (exists id, reason :: At(m.body, "id") == Str(id) && At(m.body, "stop_reason") == Str(reason))
      && forall i :: i in m.starts && Pieces(m.journal.sent, Block(i, "input")) != [] ==> i in m.stopped
  {
    if At(m.body, "id").Str? && At(m.body, "stop_reason").Str? {
      assert At(m.body, "id") == Str(At(m.body, "id").text);
      assert At(m.body, "stop_reason") == Str(At(m.body, "stop_reason").text);
    }
  }
}
