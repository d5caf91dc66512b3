/**
 Which call the argument deltas of Anthropic and Responses streams name (client.rs), and what the deltas
 received under one ID are together.
 */
module ToolInputs {
  import opened Wrappers
  import opened Jsons
  import opened OrderedMaps
  import opened StreamJournals
  import opened StreamBlocks
  import opened StreamParts
  import opened StreamNames

  // ---- Anthropic: an input delta names its block

  ghost predicate NamesItsBlock(m: Message, s: Sent) {
    s.event.Some? && s.event.value.ToolArgumentsDelta? ==>
      && s.owner.Block? && s.owner.field == "input" && s.owner.index in m.starts
      && At(m.starts[s.owner.index], "id") == Str(s.event.value.callId)
  }

  ghost predicate NamesBlocks(m: Message) {
    forall s <- m.journal.sent :: NamesItsBlock(m, s)
  }

  lemma FragmentsName(m: Message, i: nat, delta: Json)
    requires i in m.starts && BlockFragments(i, m.starts[i], delta).Some?
    ensures forall s <- BlockFragments(i, m.starts[i], delta).value :: NamesItsBlock(m, s)
  {}

  lemma StepNames(m: Message, event: Json, codec: Codec)
    requires NamesBlocks(m) && BlockStep(m, event, codec).Some?
    ensures NamesBlocks(BlockStep(m, event, codec).value)
  {
    hide BlockFragments, HasInput, Input, DeltaBody, Startable;
    var n, index := BlockStep(m, event, codec).value, U64(At(event, "index"));
    if At(event, "type") == Str("content_block_delta") {
      FragmentsName(m, index.value, At(event, "delta"));
    }
    forall s | s in n.journal.sent ensures NamesItsBlock(n, s) {
      assert NamesItsBlock(m, s);
    }
  }

  // Throughout a message every input delta is announced under the ID its block started with.
  lemma {:induction false} BlocksName(events: seq<Json>, codec: Codec)
    requires MessageFold(events, codec).Some?
    ensures NamesBlocks(MessageFold(events, codec).value)
  {
    hide BlockStep, NamesBlocks;
    if events == [] {
      NothingNamed();
    } else {
      BlocksName(events[..|events| - 1], codec);
      StepNames(MessageFold(events[..|events| - 1], codec).value, events[|events| - 1], codec);
    }
  }

  lemma NothingNamed()
    ensures NamesBlocks(Message(EMPTY, map[], {}, NEW))
  {}

  // The input deltas announced under a block's ID are that block's fragments, if no other block with
  // input has the ID.
  lemma BlockInputs(m: Message, i: nat)
    requires BlockOwners(m) && NamesBlocks(m) && i in m.starts && HasInput(m, i)
    requires forall k <- m.starts :: k != i && HasInput(m, k) ==> At(m.starts[k], "id") != At(m.starts[i], "id")
    ensures At(m.starts[i], "id").Str?
    ensures Join(FieldPieces(m, i, "input")) == ArgumentsFor(Emitted(m.journal.sent), At(m.starts[i], "id").text)
  {
    hide Pieces, Join, Emitted;
    var o := Block(i, "input");
    PieceExists(m.journal.sent, o);
    var first :| first in m.journal.sent && first.owner == o;
    assert Announced(first) && NamesItsBlock(m, first);
    var id := At(m.starts[i], "id").text;
    forall s | s in m.journal.sent
      ensures s.owner == o <==> s.event.Some? && s.event.value.ToolArgumentsDelta? && s.event.value.callId == id
    {
      assert Announced(s) && NamesItsBlock(m, s);
      if s.event.Some? && s.event.value.ToolArgumentsDelta? {
        PieceExists(m.journal.sent, s.owner);
      }
    }
    ArgumentsAreJoined(m.journal, o, id);
  }

  // ---- Responses: an argument delta names the call of its item

  predicate GivesCall(event: Json, id: string) {
    var item := At(event, "item");
    && Name(event) in {"response.output_item.added", "response.output_item.done"}
    && item.Object? && At(item, "type") == Str("function_call")
    && At(item, "id") == Str(id) && At(item, "call_id").Str?
  }

  // The call ID last given to an item.
  function CallFor(events: seq<Json>, id: string): Option<string> {
    if events == [] then None
    else
      var (before, e) := (events[..|events| - 1], events[|events| - 1]);
      if GivesCall(e, id) then Some(At(At(e, "item"), "call_id").text) else CallFor(before, id)
  }

  // The call an argument event speaks for.
  function CallOfEvent(before: seq<Json>, event: Json): string {
    var call := CallFor(before, StrOr(At(event, "item_id")));
    if call.Some? then call.value else ""
  }

  // An event whose text counts: one that adds to its key, or closes a key without any earlier event.
  predicate Counts(before: seq<Json>, event: Json) {
    Carries(event, KeyOf(event)) || (Closes(event, KeyOf(event)) && !Touches(before, KeyOf(event)))
  }

  // The argument deltas the events of a stream stand for.
  function CallDeltas(events: seq<Json>): seq<ModelEvent> {
    if events == [] then []
    else
      var (before, e) := (events[..|events| - 1], events[|events| - 1]);
      CallDeltas(before)
      + if SpeaksOfCall(e) && Counts(before, e) then [ToolArgumentsDelta(CallOfEvent(before, e), TextIn(e, true))]
        else []
  }

  function ToolDeltas(events: seq<ModelEvent>): seq<ModelEvent> {
    if events == [] then []
    else
      var (before, e) := (events[..|events| - 1], events[|events| - 1]);
      ToolDeltas(before) + if e.ToolArgumentsDelta? then [e] else []
  }

  lemma ToolDeltasMore(events: seq<ModelEvent>, e: ModelEvent)
    ensures ToolDeltas(events + [e]) == ToolDeltas(events) + if e.ToolArgumentsDelta? then [e] else []
  {
    assert (events + [e])[..|events|] == events;
  }

  lemma {:induction false} ToolDeltasFor(events: seq<ModelEvent>, id: string)
    ensures ArgumentsFor(ToolDeltas(events), id) == ArgumentsFor(events, id)
  {
    if events != [] {
      var before, e := events[..|events| - 1], events[|events| - 1];
      ToolDeltasFor(before, id);
      ArgumentsForMore(ToolDeltas(before), e, id);
      assert ToolDeltas(before) + [] == ToolDeltas(before);
    }
  }

  lemma {:induction false} CallsGiven(events: seq<Json>, id: string)
    requires PartsRun(NO_PARTS, events).Some?
    ensures var calls := PartsRun(NO_PARTS, events).value.callIds;
      CallFor(events, id) == if id in calls then Some(calls[id]) else None
  {
    hide PartsStep, KindOf, GivesCall;
    if events != [] {
      CallsGiven(events[..|events| - 1], id);
      StepGives(PartsRun(NO_PARTS, events[..|events| - 1]).value, events[|events| - 1], id);
    }
  }

  lemma StepGives(p: Parts, event: Json, id: string)
    requires PartsStep(p, event).Some?
    ensures var calls := PartsStep(p, event).value.callIds;
      (if id in calls then Some(calls[id]) else None) ==
        if GivesCall(event, id) then Some(At(At(event, "item"), "call_id").text)
        else if id in p.callIds then Some(p.callIds[id]) else None
  {
    ItemNames(event);
    hide KindOf, KeyOf, Begun, Log, Name;
  }

  lemma ItemNames(event: Json)
    ensures Name(event) in {"response.output_item.added", "response.output_item.done"} <==> Type(event).ItemChanged?
  {}

  lemma StepEmits(p: Parts, event: Json)
    requires PartsStep(p, event).Some?
    ensures var id := StrOr(At(event, "item_id"));
      var counts := Type(event).Arguments? && !(Type(event).done && KeyOf(event) in p.deltas);
      && (counts ==> id in p.callIds)
      && ToolDeltas(Emitted(PartsStep(p, event).value.journal.sent)) == ToolDeltas(Emitted(p.journal.sent))
        + if counts then [ToolArgumentsDelta(p.callIds[id], TextIn(event, true))] else []
  {
    NamesAre(event);
    hide KindOf, Emitted, ToolDeltas, KeyOf, TextStep, TextIn, Carries, Closes, SpeaksOfCall, ContentField;
    if Type(event).Texts? {
      TextEmits(p, event);
    } else if Type(event).Arguments? && !(Type(event).done && KeyOf(event) in p.deltas) {
      var s := ArgumentsSent(KeyOf(event), p.callIds[StrOr(At(event, "item_id"))], TextIn(event, true));
      EmittedLog(p.journal, s);
      ToolDeltasMore(Emitted(p.journal.sent), s.event.value);
    }
  }

  lemma TextEmits(p: Parts, event: Json)
    requires Type(event).Texts? && TextStep(p, Type(event), KeyOf(event), event).Some?
    ensures ToolDeltas(Emitted(TextStep(p, Type(event), KeyOf(event), event).value.journal.sent))
      == ToolDeltas(Emitted(p.journal.sent))
  {
    hide KindOf, Emitted, ToolDeltas, KeyOf, Log, Begun, ContentField;
    var q := TextStep(p, Type(event), KeyOf(event), event).value;
    if q.journal != p.journal {
      var s: Sent :| s.event.Some? && !s.event.value.ToolArgumentsDelta? && q.journal == Log(p.journal, s);
      EmittedLog(p.journal, s);
      ToolDeltasMore(Emitted(p.journal.sent), s.event.value);
    }
  }

  // For every stream the argument deltas announced are, in order, those its events stand for: each
  // under the call ID last given to the item the event names, none counted twice.
  lemma {:induction false} DeltasNameItems(events: seq<Json>)
    requires PartsRun(NO_PARTS, events).Some?
    ensures ToolDeltas(Emitted(PartsRun(NO_PARTS, events).value.journal.sent)) == CallDeltas(events)
  {
    hide PartsStep, KeyOf, KindOf, TextIn, ToolDeltas, Emitted, CallFor, Touches, Carries, Closes, SpeaksOfCall;
    if events == [] {
      NothingAnnounced();
    } else {
      var before, e := events[..|events| - 1], events[|events| - 1];
      var p := PartsRun(NO_PARTS, before).value;
      DeltasNameItems(before);
      FragmentsAreTexts(NO_PARTS, before, KeyOf(e));
      CallsGiven(before, StrOr(At(e, "item_id")));
      StepEmits(p, e);
      NamesAre(e);
    }
  }

  lemma NothingAnnounced()
    ensures ToolDeltas(Emitted(NEW.sent)) == []
  {}

  // The arguments of a key are those of one call: what counts for the key names the call, and what
  // names the call counts for the key.
  predicate OneCall(events: seq<Json>, key: Key, id: string) {
    events == [] ||
      var (before, e) := (events[..|events| - 1], events[|events| - 1]);
      && OneCall(before, key, id)
      && (Counts(before, e) ==>
        if SpeaksOfCall(e) then KeyOf(e) == key <==> CallOfEvent(before, e) == id else KeyOf(e) != key)
  }

  lemma {:induction false} Untouched(events: seq<Json>, key: Key)
    requires !Touches(events, key)
    ensures TextsFor(events, key) == []
  {
    hide KeyOf, KindOf, TextIn, SpeaksOfCall, Carries, Closes;
    if events != [] {
      assert events[|events| - 1] in events && forall e <- events[..|events| - 1] :: e in events;
      Untouched(events[..|events| - 1], key);
    }
  }

  lemma {:induction false} KeyIsCall(events: seq<Json>, key: Key, id: string)
    requires OneCall(events, key, id)
    ensures Join(TextsFor(events, key)) == ArgumentsFor(CallDeltas(events), id)
  {
    hide KeyOf, KindOf, TextIn, Touches, CallFor, Join, Carries, Closes, SpeaksOfCall;
    if events == [] {
      assert Join([]) == "" by { JoinNone(); }
    } else {
      var before, e := events[..|events| - 1], events[|events| - 1];
      KeyIsCall(before, key, id);
      if !Touches(before, key) { Untouched(before, key); }
      ArgumentTexts(e);
      OwnKey(e, key);
      NotBoth(e, key);
      JoinMore(TextsFor(before, key), TextIn(e, true));
      ArgumentsForMore(CallDeltas(before), ToolArgumentsDelta(CallOfEvent(before, e), TextIn(e, true)), id);
      assert CallDeltas(before) + [] == CallDeltas(before);
      assert [] + [TextIn(e, true)] == [TextIn(e, true)];
    }
  }

  lemma ArgumentTexts(event: Json)
    ensures SpeaksOfCall(event) ==> forall first :: TextIn(event, first) == TextIn(event, true)
  {}

  lemma NotBoth(event: Json, key: Key)
    ensures !(Carries(event, key) && Closes(event, key))
    ensures SpeaksOfCall(event) ==> Carries(event, KeyOf(event)) || Closes(event, KeyOf(event))
  {
    hide KeyOf;
  }

  // ---- the item of a completed response

  lemma {:induction false} OnlyText(texts: seq<string>, text: string)
    requires texts != [] && forall t <- texts :: t == text
    ensures FirstNonEmpty(texts) == text
  {
    if |texts| == 1 || texts[0] != "" {
      assert texts[0] in texts;
      assert texts[1..] == [] || text != "";
    } else {
      assert forall t <- texts[1..] :: t in texts;
      OnlyText(texts[1..], text);
    }
  }

  lemma {:induction false} OnlyKey(keys: seq<Key>, fragments: map<Key, string>, key: Key)
    requires forall k <- keys :: k in fragments && (k.index == key.index ==> k == key)
    ensures forall t <- IndexTexts(keys, fragments, key.index) :: key in fragments && t == fragments[key]
  {
    if keys != [] {
      var before, k := keys[..|keys| - 1], keys[|keys| - 1];
      assert k in keys && forall x <- before :: x in keys;
      OnlyKey(before, fragments, key);
    }
  }

  // A call item without arguments of its own, and the one key of its index.
  predicate FillsItem(items: map<nat, Json>, fragments: map<Key, string>, key: Key) {
    && key in fragments && (forall k <- fragments :: k.index == key.index ==> k == key)
    && key.index in items && LacksArguments(items[key.index])
  }

  // Such an item takes the fragments of the key.
  lemma CompletedArguments(items: map<nat, Json>, fragments: map<Key, string>, key: Key)
    requires FillsItem(items, fragments, key)
    ensures key.index in Completed(items, fragments)
    ensures StrOr(At(Completed(items, fragments)[key.index], "arguments")) == fragments[key]
  {
    hide Fill, IndexTexts, FirstNonEmpty, KeysOf, KindTexts;
    var keys, i := KeysOf(fragments), key.index;
    KeysOfIs(fragments);
    FillKeys(items, keys, fragments, i);
    FillIs(items, keys, fragments, i);
    OnlyKey(keys, fragments, key);
    OnlyText(IndexTexts(keys, fragments, i), fragments[key]);
    var filled := Fill(items, keys, fragments)[i];
    assert At(filled, "type") == Str("function_call");
  }

  lemma KeysOfIs(fragments: map<Key, string>)
    ensures forall k :: k in KeysOf(fragments) <==> k in fragments
  {
    KeyOrder();
    KeysAre(fragments.Keys, KeyLe);
  }
}
