/**
 Which call a chat stream's argument deltas are announced for (client.rs): at every point of a stream
 the call of their entry, exactly when no chunk resets the ID of an entry with arguments. What holds at
 the end of a stream is the subject of StreamCalls.
 */
module StreamNames {
  import opened Wrappers
  import opened Jsons
  import opened StreamJournals

  // ---- one list of call fragments

  // Every announced argument delta names the call its entry ends up with, and waits for the name.
  ghost predicate NamesItsCall(j: Journal) {
    forall s <- j.sent :: s.event.Some? && s.event.value.ToolArgumentsDelta? ==>
      match s.owner
      case Entry(i, _) => s.event.value.callId == CurrentId(j, i) != ""
      case Archived(k, _) => s.event.value.callId == Latest(j, Archived(k, "id"))
      case _ => true
  }

  lemma ArchiveNames(j: Journal, i: nat)
    requires ChatOwners(j) && NamesItsCall(j)
    ensures NamesItsCall(Archive(j, i))
  {
    hide Pieces, Retag, Announced;
    var r := Archive(j, i);
    RetagLength(j.sent, i, j.archived);
    forall n | 0 <= n < |r.sent| && r.sent[n].event.Some? && r.sent[n].event.value.ToolArgumentsDelta?
      ensures match r.sent[n].owner
        case Entry(i, _) => r.sent[n].event.value.callId == CurrentId(r, i) != ""
        case Archived(k, _) => r.sent[n].event.value.callId == Latest(r, Archived(k, "id"))
        case _ => true
    {
      RetagAt(j.sent, i, j.archived, n);
      var t := j.sent[n];
      assert t in j.sent;
      if t.owner.Entry? {
        ArchivePieces(j, i, Entry(t.owner.index, "id"));
        ArchivePieces(j, i, Archived(j.archived, "id"));
      } else if t.owner.Archived? {
        ArchivePieces(j, i, Archived(t.owner.place, "id"));
      }
    }
  }

  lemma LogNames(j: Journal, s: Sent)
    requires ChatOwners(j) && NamesItsCall(j) && s.owner.Entry?
    requires s.event.Some? ==>
      s.owner.field == "arguments" && s.event.value.ToolArgumentsDelta?
        && s.event.value.callId == CurrentId(j, s.owner.index) != ""
    requires s.owner.field == "id" ==> s.delta != "" && CurrentId(j, s.owner.index) in {"", s.delta}
    ensures NamesItsCall(Log(j, s))
  {
    hide Pieces, Announced, Latest;
    forall t | t in Log(j, s).sent && t.event.Some? && t.event.value.ToolArgumentsDelta?
      ensures match t.owner
        case Entry(i, _) => t.event.value.callId == CurrentId(Log(j, s), i) != ""
        case Archived(k, _) => t.event.value.callId == Latest(Log(j, s), Archived(k, "id"))
        case _ => true
    {
      if t.owner.Entry? {
        LogIs(j, s, Entry(t.owner.index, "id"));
      } else if t.owner.Archived? {
        LogIs(j, s, Archived(t.owner.place, "id"));
      }
    }
  }

  lemma LogCall(j: Journal, i: nat, field: string, delta: string)
    requires ChatOwners(j) && NamesItsCall(j) && field in {"call", "id", "name"} && (field == "call" || IsLive(j, i))
    requires field == "id" ==> delta != "" && CurrentId(j, i) in {"", delta}
    ensures var k := Log(j, Sent(Entry(i, field), delta, None));
      ChatOwners(k) && NamesItsCall(k) && IsLive(k, i) && CurrentId(k, i) ==
        if field == "id" then delta else CurrentId(j, i)
  {
    hide Pieces, ChatOwners, NamesItsCall, Latest;
    var s := Sent(Entry(i, field), delta, None);
    OwnersLogged(j, s);
    LogNames(j, s);
    LogIs(j, s, Entry(i, "call"));
    LogIs(j, s, Entry(i, "id"));
  }

  // A fragment that sets the ID of an entry back to the empty string after announced arguments.
  predicate Resets(j: Journal, call: Json) {
    var index := U64(At(call, "index"));
    At(call, "id") == Str("") && index.Some? && Pieces(j.sent, Entry(index.value, "arguments")) != []
  }

  // One call fragment keeps every announced ID that of its entry exactly when it is no such reset.
  lemma CallNames(j: Journal, call: Json)
    requires ChatOwners(j) && NamesItsCall(j) && CallJournal(j, call).Some?
    ensures ChatOwners(CallJournal(j, call).value)
    ensures NamesItsCall(CallJournal(j, call).value) <==> !Resets(j, call)
  {
    hide ChatOwners, NamesItsCall, Pieces, Latest, Archive, Log, IsLive;
    var i := U64(At(call, "index")).value;
    var id, name, arguments := At(call, "id"), At(At(call, "function"), "name"), At(At(call, "function"), "arguments");
    var a := if Reused(id, CurrentId(j, i)) then Archive(j, i) else j;
    if Reused(id, CurrentId(j, i)) {
      ArchiveOwners(j, i);
      ArchiveNames(j, i);
      ArchivedId(j, i);
    }
    LogCall(a, i, "call", "");
    var b := Log(a, Sent(Entry(i, "call"), "", None));
    if id == Str("") {
      ResetNames(j, i, name);
    } else {
      if id.Str? { LogCall(b, i, "id", id.text); }
      var c := if id.Str? then Log(b, Sent(Entry(i, "id"), id.text, None)) else b;
      if name.Str? { LogCall(c, i, "name", name.text); }
      var d := if name.Str? then Log(c, Sent(Entry(i, "name"), name.text, None)) else c;
      if arguments.Str? {
        var s := Sent(Entry(i, "arguments"), arguments.text, Some(ToolArgumentsDelta(CurrentId(d, i), arguments.text)));
        OwnersLogged(d, s);
        LogNames(d, s);
      }
    }
  }

  // An empty ID: what it does to the entry, and that no arguments may come with it.
  lemma ResetNames(j: Journal, i: nat, name: Json)
    requires ChatOwners(j) && NamesItsCall(j)
    ensures var c := Log(Log(j, Sent(Entry(i, "call"), "", None)), Sent(Entry(i, "id"), "", None));
      var d := if name.Str? then Log(c, Sent(Entry(i, "name"), name.text, None)) else c;
      && ChatOwners(d) && CurrentId(d, i) == ""
      && (NamesItsCall(d) <==> Pieces(j.sent, Entry(i, "arguments")) == [])
  {
    hide ChatOwners, NamesItsCall, Pieces, Latest, Announced;
    LogCall(j, i, "call", "");
    var b := Log(j, Sent(Entry(i, "call"), "", None));
    var s := Sent(Entry(i, "id"), "", None);
    AnnouncedId(i, "");
    OwnersLogged(b, s);
    var c := Log(b, s);
    LogIs(b, s, Entry(i, "id"));
    LogIs(b, s, Entry(i, "call"));
    LogIs(j, Sent(Entry(i, "call"), "", None), Entry(i, "arguments"));
    LogIs(b, s, Entry(i, "arguments"));
    if Pieces(j.sent, Entry(i, "arguments")) == [] {
      EmptyIdNames(b, i);
      if name.Str? { LogCall(c, i, "name", name.text); }
    } else {
      var t := Sent(Entry(i, "name"), if name.Str? then name.text else "", None);
      if name.Str? {
        AnnouncedName(i, name.text);
        OwnersLogged(c, t);
        LogIs(c, t, Entry(i, "id"));
        LogIs(c, t, Entry(i, "arguments"));
      }
      EmptyIdMisnames(if name.Str? then Log(c, t) else c, i);
    }
  }

  lemma AnnouncedId(i: nat, id: string)
    ensures Announced(Sent(Entry(i, "id"), id, None))
  {}

  lemma AnnouncedName(i: nat, name: string)
    ensures Announced(Sent(Entry(i, "name"), name, None))
  {}

  lemma {:induction false} PieceExists(sent: seq<Sent>, o: Owner)
    ensures Pieces(sent, o) != [] <==> exists s <- sent :: s.owner == o
  {
    if sent != [] {
      var before, s := sent[..|sent| - 1], sent[|sent| - 1];
      PieceExists(before, o);
      assert sent == before + [s];
      assert forall t :: t in sent <==> t in before || t == s;
    }
  }

  lemma EmptyIdNames(j: Journal, i: nat)
    requires ChatOwners(j) && NamesItsCall(j) && Pieces(j.sent, Entry(i, "arguments")) == []
    ensures NamesItsCall(Log(j, Sent(Entry(i, "id"), "", None)))
  {
    hide Pieces, Latest;
    var s := Sent(Entry(i, "id"), "", None);
    PieceExists(j.sent, Entry(i, "arguments"));
    forall t | t in Log(j, s).sent && t.event.Some? && t.event.value.ToolArgumentsDelta?
      ensures match t.owner
        case Entry(k, _) => t.event.value.callId == CurrentId(Log(j, s), k) != ""
        case Archived(k, _) => t.event.value.callId == Latest(Log(j, s), Archived(k, "id"))
        case _ => true
    {
      assert t in j.sent && Announced(t);
      if t.owner.Entry? {
        LogIs(j, s, Entry(t.owner.index, "id"));
      } else if t.owner.Archived? {
        LogIs(j, s, Archived(t.owner.place, "id"));
      }
    }
  }

  lemma EmptyIdMisnames(j: Journal, i: nat)
    requires ChatOwners(j) && CurrentId(j, i) == "" && Pieces(j.sent, Entry(i, "arguments")) != []
    ensures !NamesItsCall(j)
  {
    hide Pieces, Latest;
    PieceExists(j.sent, Entry(i, "arguments"));
    var s :| s in j.sent && s.owner == Entry(i, "arguments");
    assert Announced(s);
  }

  lemma ArchivedId(j: Journal, i: nat)
    requires ChatOwners(j)
    ensures CurrentId(Archive(j, i), i) == ""
  {
    ArchivePieces(j, i, Entry(i, "id"));
  }

  // At every point of a stream's calls the announced IDs are those of their entries.
  ghost predicate AlwaysNames(j: Journal, calls: seq<Json>) {
    CallsJournal(j, calls).Some? && NamesItsCall(CallsJournal(j, calls).value)
    && (calls == [] || AlwaysNames(j, calls[..|calls| - 1]))
  }

  ghost predicate NeverResets(j: Journal, calls: seq<Json>)
    requires CallsJournal(j, calls).Some?
  {
    calls == [] ||
      (NeverResets(j, calls[..|calls| - 1]) && !Resets(CallsJournal(j, calls[..|calls| - 1]).value, calls[|calls| - 1]))
  }

  // At every point of a list of fragments each argument delta is announced under the ID of its entry, exactly
  // when no fragment resets the ID of an entry with arguments.
  lemma {:induction false} CallsName(j: Journal, calls: seq<Json>)
    requires ChatOwners(j) && NamesItsCall(j) && CallsJournal(j, calls).Some?
    ensures ChatOwners(CallsJournal(j, calls).value)
    ensures AlwaysNames(j, calls) <==> NeverResets(j, calls)
  {
    hide ChatOwners, NamesItsCall, Resets, CallJournal;
    if calls != [] {
      var before := calls[..|calls| - 1];
      CallsName(j, before);
      if NeverResets(j, before) {
        CallNames(CallsJournal(j, before).value, calls[|calls| - 1]);
      } else {
        CallOwners(CallsJournal(j, before).value, calls[|calls| - 1]);
      }
    }
  }

  lemma CallOwners(j: Journal, call: Json)
    requires ChatOwners(j) && CallJournal(j, call).Some?
    ensures ChatOwners(CallJournal(j, call).value)
  {
    hide ChatOwners, Pieces, Latest, Archive, Log, IsLive, Announced;
    var i := U64(At(call, "index")).value;
    var id, name, arguments := At(call, "id"), At(At(call, "function"), "name"), At(At(call, "function"), "arguments");
    var a := if Reused(id, CurrentId(j, i)) then Archive(j, i) else j;
    if Reused(id, CurrentId(j, i)) {
      ArchiveOwners(j, i);
    }
    EntryOwners(a, i, "call", "", None);
    var b := Log(a, Sent(Entry(i, "call"), "", None));
    if id.Str? { EntryOwners(b, i, "id", id.text, None); }
    var c := if id.Str? then Log(b, Sent(Entry(i, "id"), id.text, None)) else b;
    if name.Str? { EntryOwners(c, i, "name", name.text, None); }
    var d := if name.Str? then Log(c, Sent(Entry(i, "name"), name.text, None)) else c;
    if arguments.Str? {
      EntryOwners(d, i, "arguments", arguments.text, Some(ToolArgumentsDelta(CurrentId(d, i), arguments.text)));
    }
  }

  lemma EntryOwners(j: Journal, i: nat, field: string, delta: string, event: Option<ModelEvent>)
    requires ChatOwners(j) && (field == "call" || IsLive(j, i))
    requires if field == "arguments" then event.Some? && event.value.ToolArgumentsDelta? && event.value.delta == delta
      else event.None?
    ensures var k := Log(j, Sent(Entry(i, field), delta, event)); ChatOwners(k) && IsLive(k, i)
  {
    hide ChatOwners, Pieces;
    var s := Sent(Entry(i, field), delta, event);
    OwnersLogged(j, s);
    LogIs(j, s, Entry(i, "call"));
  }

  function CallOf(id: string, arguments: string): Json {
    Object(map["index" := Number(0), "id" := Str(id), "function" := Object(map["arguments" := Str(arguments)])])
  }

  lemma EntryByParts(j: Journal)
    ensures EntryOf(j, 0) == ToolJson(CurrentId(j, 0), Joined(j, Entry(0, "name")), Joined(j, Entry(0, "arguments")))
  {}

  lemma CallFields(id: string, arguments: string)
    ensures var c := CallOf(id, arguments);
      At(c, "index") == Number(0) && At(c, "id") == Str(id) && At(At(c, "function"), "name") == Null
      && At(At(c, "function"), "arguments") == Str(arguments)
  {}

  lemma NothingLogged()
    ensures CurrentId(NEW, 0) == "" && EntryOf(NEW, 0) == ToolJson("", "", "") && Emitted(NEW.sent) == []
    ensures Joined(NEW, Entry(0, "name")) == "" && Joined(NEW, Entry(0, "arguments")) == ""
    ensures CallsJournal(NEW, []) == Some(NEW)
  {}

  lemma CallsOneMore(j: Journal, calls: seq<Json>, call: Json)
    ensures CallsJournal(j, calls + [call]) ==
      match CallsJournal(j, calls) case None => None case Some(k) => CallJournal(k, call)
  {
    assert (calls + [call])[..|calls|] == calls;
  }

  lemma LogZero(j: Journal, field: string, delta: string, event: Option<ModelEvent>) returns (k: Journal)
    requires field in {"call", "id", "name", "arguments"}
    ensures k == Log(j, Sent(Entry(0, field), delta, event))
    ensures CurrentId(k, 0) == if field == "id" then delta else CurrentId(j, 0)
    ensures EntryOf(k, 0) == ToolJson(CurrentId(k, 0),
      if field == "name" then Joined(j, Entry(0, "name")) + delta else Joined(j, Entry(0, "name")),
      if field == "arguments" then Joined(j, Entry(0, "arguments")) + delta else Joined(j, Entry(0, "arguments")))
    ensures Joined(k, Entry(0, "name")) ==
      if field == "name" then Joined(j, Entry(0, "name")) + delta else Joined(j, Entry(0, "name"))
    ensures Joined(k, Entry(0, "arguments")) ==
      if field == "arguments" then Joined(j, Entry(0, "arguments")) + delta else Joined(j, Entry(0, "arguments"))
    ensures Emitted(k.sent) == Emitted(j.sent) + (if event.Some? then [event.value] else [])
  {
    hide Pieces, Joined, Latest, Emitted;
    var s := Sent(Entry(0, field), delta, event);
    k := Log(j, s);
    EntryField(j, s);
    EmittedLog(j, s);
    LogIs(j, s, Entry(0, "id"));
    LogIs(j, s, Entry(0, "name"));
    LogIs(j, s, Entry(0, "arguments"));
  }

  // ---- choices and chunks

  lemma NewNames()
    ensures ChatOwners(NEW) && NamesItsCall(NEW)
  {}

  lemma TextNames(j: Journal, s: Sent)
    requires ChatOwners(j) && Announced(s) && s.owner in {Text, Reasoning}
    ensures ChatOwners(Log(j, s)) && (NamesItsCall(j) ==> NamesItsCall(Log(j, s)))
  {
    hide Pieces, Latest, ChatOwners;
    OwnersLogged(j, s);
    if NamesItsCall(j) {
      forall t | t in Log(j, s).sent && t.event.Some? && t.event.value.ToolArgumentsDelta?
        ensures match t.owner
          case Entry(i, _) => t.event.value.callId == CurrentId(Log(j, s), i) != ""
          case Archived(k, _) => t.event.value.callId == Latest(Log(j, s), Archived(k, "id"))
          case _ => true
      {
        assert t in j.sent || t == s;
        if t.owner.Entry? {
          LogIs(j, s, Entry(t.owner.index, "id"));
        } else if t.owner.Archived? {
          LogIs(j, s, Archived(t.owner.place, "id"));
        }
      }
    }
  }

  // Text and reasoning of a chunk touch no call.
  lemma TextsName(j: Journal, delta: Json, codec: Codec)
    requires ChatOwners(j)
    ensures ChatOwners(TextsJournal(j, delta, codec))
    ensures NamesItsCall(j) ==> NamesItsCall(TextsJournal(j, delta, codec))
  {
    hide ChatOwners, NamesItsCall, Log, ReasoningIn, Joined;
    var thoughts, content := ReasoningIn(delta, codec), StrOr(At(delta, "content"));
    var a := LogReasoning(j, thoughts);
    if thoughts != "" { TextNames(j, Sent(Reasoning, thoughts, Some(ReasoningDelta(thoughts)))); }
    var b := LogText(a, content);
    if content != "" { TextNames(a, Sent(Text, content, Some(TextDelta(content)))); }
    var refusal := Introduced(StrOr(At(delta, "refusal")), Joined(b, Text));
    if refusal != "" { TextNames(b, Sent(Text, refusal, Some(TextDelta(refusal)))); }
  }

  function CallsOf(choice: Json): seq<Json> {
    ItemsOr(At(At(choice, "delta"), "tool_calls"))
  }

  // Where the calls of a choice start.
  function BeforeCalls(c: ChatRun, choice: Json, codec: Codec): Journal {
    TextsJournal(c.journal, At(choice, "delta"), codec)
  }

  ghost predicate ChoicesName(c: ChatRun, choices: seq<Json>, codec: Codec)
    requires ChoicesRun(c, choices, codec).Some?
  {
    choices == [] ||
      (ChoicesName(c, choices[..|choices| - 1], codec)
      && AlwaysNames(BeforeCalls(ChoicesRun(c, choices[..|choices| - 1], codec).value, choices[|choices| - 1], codec),
        CallsOf(choices[|choices| - 1])))
  }

  ghost predicate ChoicesNeverReset(c: ChatRun, choices: seq<Json>, codec: Codec)
    requires ChoicesRun(c, choices, codec).Some?
  {
    choices == [] ||
      (ChoicesNeverReset(c, choices[..|choices| - 1], codec)
      && var j := BeforeCalls(ChoicesRun(c, choices[..|choices| - 1], codec).value, choices[|choices| - 1], codec);
        CallsJournal(j, CallsOf(choices[|choices| - 1])).Some? && NeverResets(j, CallsOf(choices[|choices| - 1])))
  }

  lemma ChoiceNames(c: ChatRun, choice: Json, codec: Codec)
    requires ChatOwners(c.journal) && ChoiceRun(c, choice, codec).Some?
    ensures var j := BeforeCalls(c, choice, codec);
      && CallsJournal(j, CallsOf(choice)) == Some(ChoiceRun(c, choice, codec).value.journal)
      && ChatOwners(ChoiceRun(c, choice, codec).value.journal)
      && (NamesItsCall(c.journal) ==>
        && (AlwaysNames(j, CallsOf(choice)) <==> NeverResets(j, CallsOf(choice)))
        && (AlwaysNames(j, CallsOf(choice)) ==> NamesItsCall(ChoiceRun(c, choice, codec).value.journal)))
  {
    hide ChatOwners, NamesItsCall, TextsJournal, CallsJournal, NeverResets;
    var j := BeforeCalls(c, choice, codec);
    TextsName(c.journal, At(choice, "delta"), codec);
    CallsOwners(j, CallsOf(choice));
    if NamesItsCall(c.journal) {
      CallsName(j, CallsOf(choice));
    }
  }

  lemma {:induction false} CallsOwners(j: Journal, calls: seq<Json>)
    requires ChatOwners(j) && CallsJournal(j, calls).Some?
    ensures ChatOwners(CallsJournal(j, calls).value)
  {
    hide ChatOwners, CallJournal;
    if calls != [] {
      CallsOwners(j, calls[..|calls| - 1]);
      CallOwners(CallsJournal(j, calls[..|calls| - 1]).value, calls[|calls| - 1]);
    }
  }

  lemma {:induction false} AllChoicesName(c: ChatRun, choices: seq<Json>, codec: Codec)
    requires ChatOwners(c.journal) && ChoicesRun(c, choices, codec).Some?
    ensures ChatOwners(ChoicesRun(c, choices, codec).value.journal)
    ensures NamesItsCall(c.journal) ==>
      && (ChoicesName(c, choices, codec) <==> ChoicesNeverReset(c, choices, codec))
      && (ChoicesName(c, choices, codec) ==> NamesItsCall(ChoicesRun(c, choices, codec).value.journal))
  {
    hide ChatOwners, NamesItsCall, BeforeCalls, ChoiceRun, AlwaysNames, NeverResets, CallsJournal, CallsOf;
    if choices != [] {
      var before, last := choices[..|choices| - 1], choices[|choices| - 1];
      AllChoicesName(c, before, codec);
      ChoiceNames(ChoicesRun(c, before, codec).value, last, codec);
    }
  }

  function Headed(c: ChatRun, event: Json): ChatRun {
    c.(body := HeadersOf(c.body, event))
  }

  // At every point of a stream of chunks the announced IDs are those of their entries.
  ghost predicate StreamNamesCalls(events: seq<Json>, codec: Codec)
    requires ChatFold(events, codec).Some?
  {
    events == [] ||
      (StreamNamesCalls(events[..|events| - 1], codec)
      && ChunkNames(ChatFold(events[..|events| - 1], codec).value, events[|events| - 1], codec))
  }

  ghost predicate ChunkNames(c: ChatRun, event: Json, codec: Codec) {
    var choices := ItemsOr(At(event, "choices"));
    ChoicesRun(Headed(c, event), choices, codec).Some? && ChoicesName(Headed(c, event), choices, codec)
  }

  // No fragment of a stream resets the ID of an entry with arguments.
  ghost predicate StreamNeverResets(events: seq<Json>, codec: Codec)
    requires ChatFold(events, codec).Some?
  {
    events == [] ||
      (StreamNeverResets(events[..|events| - 1], codec)
      && ChunkNeverResets(ChatFold(events[..|events| - 1], codec).value, events[|events| - 1], codec))
  }

  ghost predicate ChunkNeverResets(c: ChatRun, event: Json, codec: Codec) {
    var choices := ItemsOr(At(event, "choices"));
    ChoicesRun(Headed(c, event), choices, codec).Some? && ChoicesNeverReset(Headed(c, event), choices, codec)
  }

  lemma ChunkIs(c: ChatRun, event: Json, codec: Codec)
    requires ChatOwners(c.journal) && ChatStep(c, event, codec).Some?
    ensures ChatOwners(ChatStep(c, event, codec).value.journal)
    ensures NamesItsCall(c.journal) ==>
      && (ChunkNames(c, event, codec) <==> ChunkNeverResets(c, event, codec))
      && (ChunkNames(c, event, codec) ==> NamesItsCall(ChatStep(c, event, codec).value.journal))
  {
    hide ChatOwners, NamesItsCall, ChoicesRun, ChoicesName, ChoicesNeverReset, HeadersOf;
    AllChoicesName(Headed(c, event), ItemsOr(At(event, "choices")), codec);
  }

  // For every stream of chunks, with text and choices between the calls: at every point of it all
  // argument deltas so far are announced under the ID their entry then has, if and only if no fragment
  // is a reset.
  lemma {:induction false} ChatNames(events: seq<Json>, codec: Codec)
    requires ChatFold(events, codec).Some?
    ensures ChatOwners(ChatFold(events, codec).value.journal)
    ensures StreamNamesCalls(events, codec) <==> StreamNeverResets(events, codec)
    ensures StreamNamesCalls(events, codec) ==> NamesItsCall(ChatFold(events, codec).value.journal)
  {
    hide ChatOwners, NamesItsCall, ChatStep, ChunkNames, ChunkNeverResets;
    if events == [] {
      NewNames();
    } else {
      var before, last := events[..|events| - 1], events[|events| - 1];
      ChatNames(before, codec);
      ChunkIs(ChatFold(before, codec).value, last, codec);
    }
  }

  // ---- a stream with a reset

  function ChunkOf(call: Json): Json {
    Object(map["choices" := Array([Object(map["delta" := Object(map["tool_calls" := Array([call])])])])])
  }

  const RESET: Json := Object(map["index" := Number(0), "id" := Str("")])

  // Arguments for the call that holds index 0, or for a first one.
  lemma NextArguments(j: Journal, id: string, arguments: string) returns (k: Journal)
    requires id != "" && CurrentId(j, 0) in {"", id}
    ensures CallJournal(j, CallOf(id, arguments)) == Some(k) && CurrentId(k, 0) == id
    ensures Joined(k, Entry(0, "name")) == Joined(j, Entry(0, "name"))
    ensures Joined(k, Entry(0, "arguments")) == Joined(j, Entry(0, "arguments")) + arguments
    ensures Emitted(k.sent) == Emitted(j.sent) + [ToolArgumentsDelta(id, arguments)]
  {
    CallFields(id, arguments);
    hide CallOf, Pieces, Joined, Latest, Emitted, Log, ToolJson, Archive;
    var a := LogZero(j, "call", "", None);
    var b := LogZero(a, "id", id, None);
    k := LogZero(b, "arguments", arguments, Some(ToolArgumentsDelta(id, arguments)));
  }

  lemma NextReset(j: Journal) returns (k: Journal)
    ensures CallJournal(j, RESET) == Some(k) && CurrentId(k, 0) == ""
    ensures Joined(k, Entry(0, "name")) == Joined(j, Entry(0, "name"))
    ensures Joined(k, Entry(0, "arguments")) == Joined(j, Entry(0, "arguments"))
    ensures Emitted(k.sent) == Emitted(j.sent)
  {
    hide Pieces, Joined, Latest, Emitted, Log, ToolJson, Archive;
    var a := LogZero(j, "call", "", None);
    k := LogZero(a, "id", "", None);
  }

  function BareChoice(call: Json): Json {
    Object(map["delta" := Object(map["tool_calls" := Array([call])])])
  }

  // A delta without text, reasoning or refusal.
  predicate OnlyCalls(delta: Json) {
    && At(delta, "reasoning") == Null && At(delta, "reasoning_content") == Null && At(delta, "reasoning_text") == Null
    && At(delta, "content") == Null && At(delta, "refusal") == Null
    && At(delta, "reasoning_opaque") == Null && At(delta, "reasoning_details") == Null
  }

  lemma BareDelta(call: Json)
    ensures var delta := At(BareChoice(call), "delta");
      ItemsOr(At(delta, "tool_calls")) == [call] && OnlyCalls(delta)
    ensures FirstChoice(BareChoice(call)) && At(BareChoice(call), "finish_reason") == Null
  {}

  lemma NoTexts(j: Journal, delta: Json, codec: Codec)
    requires codec.detailsText(Null) == "" && OnlyCalls(delta)
    ensures TextsJournal(j, delta, codec) == j
  {
    hide Joined;
  }

  lemma NoBody(body: Json, delta: Json)
    requires OnlyCalls(delta)
    ensures ChoiceBody(body, delta) == body
  {}

  lemma BareChoiceRuns(c: ChatRun, call: Json, codec: Codec)
    requires codec.detailsText(Null) == "" && CallJournal(c.journal, call).Some?
    ensures ChoiceRun(c, BareChoice(call), codec) == Some(c.(journal := CallJournal(c.journal, call).value))
  {
    hide CallJournal, TextsJournal, ChoiceBody, FirstChoice, CallsJournal, BareChoice, OnlyCalls;
    BareDelta(call);
    NoBody(c.body, At(BareChoice(call), "delta"));
    NoTexts(c.journal, At(BareChoice(call), "delta"), codec);
    CallsOneMore(c.journal, [], call);
    assert [] + [call] == [call];
    NoCalls(c.journal);
  }

  lemma NoCalls(j: Journal)
    ensures CallsJournal(j, []) == Some(j)
  {}

  // A chunk of nothing but one call fragment.
  lemma ChunkCalls(c: ChatRun, call: Json, codec: Codec)
    requires codec.detailsText(Null) == "" && CallJournal(c.journal, call).Some?
    ensures ChatStep(c, ChunkOf(call), codec) == Some(c.(journal := CallJournal(c.journal, call).value))
  {
    hide CallJournal, Copied, ChoiceRun;
    var event := ChunkOf(call);
    assert At(event, "choices") == Array([BareChoice(call)]);
    NoHeaders(c.body, event);
    BareChoiceRuns(c, call, codec);
    assert [BareChoice(call)][..0] == [];
    assert ChoicesRun(c, [], codec) == Some(c);
  }

  lemma NoHeaders(body: Json, event: Json)
    requires forall key <- ["id", "model", "metadata", "end_turn"] :: !Has(event, key)
    ensures Copied(body, event, ["id", "model", "metadata", "end_turn"]) == body
  {
    var keys := ["id", "model", "metadata", "end_turn"];
    assert keys[..3] == ["id", "model", "metadata"] && keys[..3][..2] == ["id", "model"]
      && keys[..3][..2][..1] == ["id"];
    assert keys[3] in keys && keys[2] in keys && keys[1] in keys && keys[0] in keys;
    assert Copied(body, event, []) == body;
    assert Copied(body, event, ["id"]) == body;
    assert Copied(body, event, ["id", "model"]) == body;
    assert Copied(body, event, ["id", "model", "metadata"]) == body;
  }

  lemma FoldOneMore(events: seq<Json>, event: Json, codec: Codec)
    ensures ChatFold([], codec) == Some(ChatRun(EMPTY, NEW, None))
    ensures ChatFold(events + [event], codec) ==
      match ChatFold(events, codec) case None => None case Some(c) => ChatStep(c, event, codec)
  {
    hide ChatStep;
    assert (events + [event])[..|events|] == events;
  }

  // Three accepted chunks merge two calls: "x" was announced for call "a" and ends up in call "b".
  lemma ResetMergesCalls(codec: Codec)
    requires codec.detailsText(Null) == ""
    ensures var events := [ChunkOf(CallOf("a", "x")), ChunkOf(RESET), ChunkOf(CallOf("b", "y"))];
      var run := ChatFold(events, codec);
      run.Some?
      && EntryOf(run.value.journal, 0) == ToolJson("b", "", "xy")
      && Emitted(run.value.journal.sent) == [ToolArgumentsDelta("a", "x"), ToolArgumentsDelta("b", "y")]
  {
    var a, b := CallOf("a", "x"), CallOf("b", "y");
    NothingLogged();
    hide CallOf, Pieces, Joined, Latest, Emitted, ChatFold, ChatStep, CallJournal, ToolJson, CurrentId, ChunkOf;
    var first := NextArguments(NEW, "a", "x");
    var reset := NextReset(first);
    var last := NextArguments(reset, "b", "y");
    FoldOneMore([], ChunkOf(a), codec);
    ChunkCalls(ChatRun(EMPTY, NEW, None), a, codec);
    FoldOneMore([ChunkOf(a)], ChunkOf(RESET), codec);
    ChunkCalls(ChatRun(EMPTY, first, None), RESET, codec);
    FoldOneMore([ChunkOf(a), ChunkOf(RESET)], ChunkOf(b), codec);
    ChunkCalls(ChatRun(EMPTY, reset, None), b, codec);
    assert [] + [ChunkOf(a)] == [ChunkOf(a)] && [ChunkOf(a)] + [ChunkOf(RESET)] == [ChunkOf(a), ChunkOf(RESET)];
    assert [ChunkOf(a), ChunkOf(RESET)] + [ChunkOf(b)] == [ChunkOf(a), ChunkOf(RESET), ChunkOf(b)];
    assert "" + "x" + "y" == "xy";
    EntryByParts(last);
  }

  // ---- what a caller makes of the announced deltas

  // The argument deltas announced for a call ID, together.
  function ArgumentsFor(events: seq<ModelEvent>, id: string): string {
    if events == [] then ""
    else
      var (before, e) := (ArgumentsFor(events[..|events| - 1], id), events[|events| - 1]);
      if e.ToolArgumentsDelta? && e.callId == id then before + e.delta else before
  }

  lemma ArgumentsForMore(events: seq<ModelEvent>, e: ModelEvent, id: string)
    ensures ArgumentsFor(events + [e], id) ==
      if e.ToolArgumentsDelta? && e.callId == id then ArgumentsFor(events, id) + e.delta else ArgumentsFor(events, id)
  {
    assert (events + [e])[..|events|] == events;
  }

  // An ID announced for one owner's fragments alone.
  ghost predicate Only(sent: seq<Sent>, o: Owner, id: string) {
    forall s <- sent ::
      s.owner == o <==> s.event.Some? && s.event.value.ToolArgumentsDelta? && s.event.value.callId == id
  }

  lemma {:induction false} ArgumentsAreJoined(j: Journal, o: Owner, id: string)
    requires AllAnnounced(j.sent) && Only(j.sent, o, id)
    ensures ArgumentsFor(Emitted(j.sent), id) == Joined(j, o)
    decreases |j.sent|
  {
    hide Pieces, Joined, Emitted, Announced, ArgumentsFor;
    if j.sent == [] {
      NothingIsJoined(j, o);
      NoArguments(id);
    } else {
      var s := j.sent[|j.sent| - 1];
      var before := j.(sent := j.sent[..|j.sent| - 1]);
      assert j == Log(before, s) && s in j.sent;
      assert forall t <- before.sent :: t in j.sent;
      ArgumentsAreJoined(before, o, id);
      LogIs(before, s, o);
      EmittedLog(before, s);
      if s.event.Some? {
        SaysItsDelta(s);
        ArgumentsForMore(Emitted(before.sent), s.event.value, id);
      } else {
        assert Emitted(before.sent) + [] == Emitted(before.sent);
      }
    }
  }

  lemma SaysItsDelta(s: Sent)
    requires Announced(s)
    ensures s.event.Some? && s.event.value.ToolArgumentsDelta? ==> s.event.value.delta == s.delta
  {}

  lemma NoArguments(id: string)
    ensures ArgumentsFor([], id) == ""
  {}

  lemma NothingIsJoined(j: Journal, o: Owner)
    requires j.sent == []
    ensures Joined(j, o) == "" && Emitted(j.sent) == []
  {}

  function IdOf(tool: Json): string {
    StrOr(At(tool, "id"))
  }

  function ArgumentsOf(tool: Json): string {
    StrOr(At(At(tool, "function"), "arguments"))
  }

  lemma ToolParts(id: string, name: string, arguments: string)
    ensures IdOf(ToolJson(id, name, arguments)) == id && ArgumentsOf(ToolJson(id, name, arguments)) == arguments
  {}

  // Fields of matched entries.
  lemma EntryParts(j: Journal, text: string, reasoning: string, tools: map<nat, Json>, archived: seq<Json>)
    requires ChatMatches(j, text, reasoning, tools, archived)
    ensures forall i :: i in tools ==>
      IdOf(tools[i]) == CurrentId(j, i) && ArgumentsOf(tools[i]) == Joined(j, Entry(i, "arguments"))
    ensures forall k :: 0 <= k < |archived| ==>
      IdOf(archived[k]) == Latest(j, Archived(k, "id"))
        && ArgumentsOf(archived[k]) == Joined(j, Archived(k, "arguments"))
    ensures forall s <- j.sent :: s.owner.Entry? ==> s.owner.index in tools
    ensures forall s <- j.sent :: s.owner.Archived? ==> s.owner.place < |archived|
  {
    hide Pieces, Joined, Latest, IdOf, ArgumentsOf, ToolJson, Announced;
    forall i | i in tools
      ensures IdOf(tools[i]) == CurrentId(j, i) && ArgumentsOf(tools[i]) == Joined(j, Entry(i, "arguments"))
    {
      ToolParts(Latest(j, Entry(i, "id")), Joined(j, Entry(i, "name")), Joined(j, Entry(i, "arguments")));
    }
    forall k | 0 <= k < |archived|
      ensures IdOf(archived[k]) == Latest(j, Archived(k, "id"))
      ensures ArgumentsOf(archived[k]) == Joined(j, Archived(k, "arguments"))
    {
      ToolParts(Latest(j, Archived(k, "id")), Joined(j, Archived(k, "name")), Joined(j, Archived(k, "arguments")));
    }
  }

  // The tool calls of a response.
  function ToolCalls(tools: map<nat, Json>, archived: seq<Json>): set<Owner> {
    (set i | i in tools :: Entry(i, "arguments")) + (set k | 0 <= k < |archived| :: Archived(k, "arguments"))
  }

  function ToolAt(tools: map<nat, Json>, archived: seq<Json>, o: Owner): Json
    requires o in ToolCalls(tools, archived)
  {
    if o.Entry? then tools[o.index] else archived[o.place]
  }

  // The ID a delta of this owner is announced under, where announced IDs are those of the entries.
  lemma AnnouncedFor(
    j: Journal, text: string, reasoning: string, tools: map<nat, Json>, archived: seq<Json>, s: Sent)
    requires ChatMatches(j, text, reasoning, tools, archived) && NamesItsCall(j) && s in j.sent
    ensures s.event.Some? && s.event.value.ToolArgumentsDelta? ==>
      s.owner in ToolCalls(tools, archived) && s.event.value.callId == IdOf(ToolAt(tools, archived, s.owner))
    ensures s.owner in ToolCalls(tools, archived) ==> s.event.Some? && s.event.value.ToolArgumentsDelta?
  {
    hide ChatMatches, NamesItsCall, Latest, Joined, IdOf, ArgumentsOf, Pieces, Announced;
    EntryParts(j, text, reasoning, tools, archived);
    MatchedOwners(j, text, reasoning, tools, archived, s);
    if s.event.Some? && s.event.value.ToolArgumentsDelta? {
      NamedId(j, s);
    }
  }

  lemma MatchedOwners(
    j: Journal, text: string, reasoning: string, tools: map<nat, Json>, archived: seq<Json>, s: Sent)
    requires ChatMatches(j, text, reasoning, tools, archived) && s in j.sent
    ensures s.event.Some? && s.event.value.ToolArgumentsDelta? ==>
      (s.owner.Entry? && s.owner.field == "arguments" && s.owner.index in tools)
      || (s.owner.Archived? && s.owner.field == "arguments" && s.owner.place < |archived|)
    ensures (s.owner.Entry? || s.owner.Archived?) && s.owner.field == "arguments" ==>
      s.event.Some? && s.event.value.ToolArgumentsDelta?
  {
    hide Pieces, Joined, EntryOf, ArchivedOf;
    assert Announced(s);
  }

  lemma NamedId(j: Journal, s: Sent)
    requires NamesItsCall(j) && s in j.sent && s.event.Some? && s.event.value.ToolArgumentsDelta?
    ensures s.owner.Entry? ==> s.event.value.callId == CurrentId(j, s.owner.index)
    ensures s.owner.Archived? ==> s.event.value.callId == Latest(j, Archived(s.owner.place, "id"))
  {
    hide Latest;
  }

  // Where the announced IDs are those of the entries, the argument deltas announced under the ID of a
  // call that shares it with no other call are exactly that call's arguments.
  lemma CallArguments(
    j: Journal, text: string, reasoning: string, tools: map<nat, Json>, archived: seq<Json>, o: Owner)
    requires ChatMatches(j, text, reasoning, tools, archived) && NamesItsCall(j)
    requires o in ToolCalls(tools, archived)
    requires forall x <- ToolCalls(tools, archived) ::
      x != o ==> IdOf(ToolAt(tools, archived, x)) != IdOf(ToolAt(tools, archived, o))
    ensures ArgumentsOf(ToolAt(tools, archived, o)) == ArgumentsFor(Emitted(j.sent), IdOf(ToolAt(tools, archived, o)))
  {
    EntryParts(j, text, reasoning, tools, archived);
    hide ChatMatches, NamesItsCall, Pieces, Joined, Latest, IdOf, ArgumentsOf, Emitted, Announced;
    var id := IdOf(ToolAt(tools, archived, o));
    forall s | s in j.sent
      ensures s.owner == o <==> s.event.Some? && s.event.value.ToolArgumentsDelta? && s.event.value.callId == id
    {
      AnnouncedFor(j, text, reasoning, tools, archived, s);
    }
    MatchedAnnounced(j, text, reasoning, tools, archived);
    ArgumentsAreJoined(j, o, id);
  }

  lemma MatchedAnnounced(j: Journal, text: string, reasoning: string, tools: map<nat, Json>, archived: seq<Json>)
    requires ChatMatches(j, text, reasoning, tools, archived)
    ensures AllAnnounced(j.sent)
  {}
}
