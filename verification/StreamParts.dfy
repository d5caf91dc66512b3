/** Responses streams (client.rs): fragments by output index and part, and the output they fill in. */
module StreamParts {
  import opened Wrappers
  import opened Jsons
  import opened OrderedMaps
  import opened StreamJournals

  // A stream so far: the announced keys, the call of each item, and the items by output index.
  datatype Parts = Parts(
    body: Json, deltas: set<Key>, callIds: map<string, string>, items: map<nat, Json>, journal: Journal)

  datatype Kind =
    | Progress | Texts(done: bool, refusal: bool) | Arguments(done: bool) | ItemChanged | Ended | Failed | Ignored

  function KindOf(name: string): Kind {
    if name in {"response.created", "response.in_progress"} then Progress
    else if name in {"response.output_text.delta", "response.reasoning_summary_text.delta",
      "response.reasoning_text.delta"} then Texts(false, false)
    else if name in {"response.output_text.done", "response.reasoning_summary_text.done",
      "response.reasoning_text.done"} then Texts(true, false)
    else if name == "response.refusal.delta" then Texts(false, true)
    else if name == "response.refusal.done" then Texts(true, true)
    else if name == "response.function_call_arguments.delta" then Arguments(false)
    else if name == "response.function_call_arguments.done" then Arguments(true)
    else if name in {"response.output_item.added", "response.output_item.done"} then ItemChanged
    else if name in {"response.completed", "response.incomplete"} then Ended
    else if name in {"response.failed", "response.cancelled"} then Failed
    else Ignored
  }

  function Type(event: Json): Kind {
    KindOf(StrOr(At(event, "type")))
  }

  predicate Contains(s: string, part: string) {
    part <= s || (s != "" && Contains(s[1..], part))
  }

  function KeyOf(event: Json): Key {
    var index := U64(At(event, "output_index"));
    var content, summary := U64(At(event, "content_index")), U64(At(event, "summary_index"));
    Key(if index.Some? then index.value else 0,
      if content.Some? then content.value else if summary.Some? then summary.value else 0,
      Contains(StrOr(At(event, "type")), "reasoning"))
  }

  function TextSent(key: Key, text: string): Sent {
    Sent(Part(key), text, Some(if key.reasoning then ReasoningDelta(text) else TextDelta(text)))
  }

  function ArgumentsSent(key: Key, callId: string, arguments: string): Sent {
    Sent(Part(key), arguments, Some(ToolArgumentsDelta(callId, arguments)))
  }

  predicate Begun(p: Parts, key: Key) {
    Pieces(p.journal.sent, Part(key)) != []
  }

  // The field that carries a text or argument event's content.
  function ContentField(kind: Kind): string {
    if !(kind.Texts? || kind.Arguments?) || !kind.done then "delta"
    else if kind.Arguments? then "arguments"
    else if kind.refusal then "refusal"
    else "text"
  }

  // A text event: deltas always count, a closing text only for a key without any earlier event.
  function TextStep(p: Parts, kind: Kind, key: Key, event: Json): Option<Parts>
    requires kind.Texts?
  {
    var q := p.(deltas := p.deltas + {key});
    var text := At(event, ContentField(kind));
    if kind.done && key in p.deltas then Some(p)
    else if !text.Str? then None
    else if kind.done && text.text == "" then Some(q)
    else
      var shown := if kind.refusal && (kind.done || !Begun(p, key)) then REFUSED + text.text else text.text;
      Some(q.(journal := Log(p.journal, TextSent(key, shown))))
  }

  function ArgumentsStep(p: Parts, kind: Kind, key: Key, event: Json): Option<Parts>
    requires kind.Arguments?
  {
    var id, arguments := At(event, "item_id"), At(event, ContentField(kind));
    if kind.done && key in p.deltas then Some(p)
    else if !id.Str? || id.text !in p.callIds || !arguments.Str? then None
    else
      Some(p.(deltas := p.deltas + {key},
        journal := Log(p.journal, ArgumentsSent(key, p.callIds[id.text], arguments.text))))
  }

  function ItemStep(p: Parts, index: nat, item: Json): Option<Parts> {
    var q := p.(items := p.items[index := item]);
    var id, callId := At(item, "id"), At(item, "call_id");
    if !item.Object? then None
    else if At(item, "type") != Str("function_call") then Some(q)
    else if id.Str? && callId.Str? then Some(q.(callIds := p.callIds[id.text := callId.text]))
    else None
  }

  // One event other than response.completed and response.incomplete; none is an error.
  function PartsStep(p: Parts, event: Json): Option<Parts> {
    var kind, key := Type(event), KeyOf(event);
    match kind
    case Progress => Some(p.(body := Copied(p.body, At(event, "response"), ["id", "model", "metadata"])))
    case Texts(_, _) => TextStep(p, kind, key, event)
    case ItemChanged => ItemStep(p, key.index, At(event, "item"))
    case Arguments(_) => ArgumentsStep(p, kind, key, event)
    case Failed => None
    case _ => Some(p)
  }

  // The fragments held are those announced, key by key.
  ghost predicate PartsMatch(p: Parts, fragments: map<Key, string>) {
    && AllAnnounced(p.journal.sent)
    && (forall s <- p.journal.sent :: s.owner.Part?)
    && (forall k: Key :: k in fragments <==> Begun(p, k))
    && (forall k :: k in fragments ==> fragments[k] == Joined(p.journal, Part(k)))
    && fragments.Keys <= p.deltas
  }

  lemma NoParts(body: Json)
    ensures PartsMatch(Parts(body, {}, map[], map[], NEW), map[])
  {}

  lemma PartLogged(p: Parts, q: Parts, s: Sent, fragments: map<Key, string>)
    requires PartsMatch(p, fragments) && s.owner.Part? && Announced(s)
    requires q.deltas == p.deltas + {s.owner.key} && q.journal == Log(p.journal, s)
    ensures var k := s.owner.key;
      PartsMatch(q, fragments[k := (if k in fragments then fragments[k] else "") + s.delta])
  {
    hide Pieces, Joined, Announced, Log;
    forall k ensures Joined(q.journal, Part(k)) ==
      if s.owner == Part(k) then Joined(p.journal, Part(k)) + s.delta else Joined(p.journal, Part(k))
      ensures Pieces(q.journal.sent, Part(k)) ==
        if s.owner == Part(k) then Pieces(p.journal.sent, Part(k)) + [s.delta] else Pieces(p.journal.sent, Part(k))
    {
      LogIs(p.journal, s, Part(k));
    }
    if !Begun(p, s.owner.key) { NothingJoined(p, s.owner.key); }
    OnlyParts(p.journal, s);
  }

  lemma NothingJoined(p: Parts, key: Key)
    requires !Begun(p, key)
    ensures Joined(p.journal, Part(key)) == ""
  {}

  lemma OnlyParts(j: Journal, s: Sent)
    requires AllAnnounced(j.sent) && (forall t <- j.sent :: t.owner.Part?) && s.owner.Part? && Announced(s)
    ensures AllAnnounced(Log(j, s).sent) && forall t <- Log(j, s).sent :: t.owner.Part?
  {}

  // A closing event for a key with any earlier event changes nothing.
  lemma DoneCountsOnce(p: Parts, event: Json)
    requires Closes(event, KeyOf(event)) && KeyOf(event) in p.deltas
    ensures PartsStep(p, event) == Some(p)
  {
    NamesAre(event);
    hide KindOf, Closes, KeyOf, TextIn;
  }

  const NO_PARTS := Parts(EMPTY, {}, map[], map[], NEW)

  function PartsRun(p: Parts, events: seq<Json>): Option<Parts> {
    if events == [] then Some(p)
    else
      match PartsRun(p, events[..|events| - 1])
      case None => None
      case Some(before) => PartsStep(before, events[|events| - 1])
  }

  // ---- the batch reading, by the names of the events

  function Name(event: Json): string {
    StrOr(At(event, "type"))
  }

  // An event that closes a key's text or arguments, and one that adds to them.
  predicate Closes(event: Json, key: Key) {
    KeyOf(event) == key && Name(event) in {"response.output_text.done", "response.refusal.done",
      "response.reasoning_summary_text.done", "response.reasoning_text.done",
      "response.function_call_arguments.done"}
  }

  predicate Carries(event: Json, key: Key) {
    KeyOf(event) == key && Name(event) in {"response.output_text.delta", "response.refusal.delta",
      "response.reasoning_summary_text.delta", "response.reasoning_text.delta",
      "response.function_call_arguments.delta"}
  }

  predicate SpeaksOfCall(event: Json) {
    Name(event) in {"response.function_call_arguments.delta", "response.function_call_arguments.done"}
  }

  predicate Touches(events: seq<Json>, key: Key) {
    exists e <- events :: Carries(e, key) || Closes(e, key)
  }

  // The text of an event, introduced where a refusal opens its key.
  function TextIn(event: Json, first: bool): string {
    match Name(event)
    case "response.refusal.delta" =>
      (if first then "The model refused to respond: " else "") + StrOr(At(event, "delta"))
    case "response.refusal.done" =>
      (if first then "The model refused to respond: " else "") + StrOr(At(event, "refusal"))
    case "response.function_call_arguments.done" => StrOr(At(event, "arguments"))
    case "response.output_text.done" => StrOr(At(event, "text"))
    case "response.reasoning_summary_text.done" => StrOr(At(event, "text"))
    case "response.reasoning_text.done" => StrOr(At(event, "text"))
    case _ => StrOr(At(event, "delta"))
  }

  // The texts of a key's deltas, or before any event of the key the text of a closing event.
  function TextsFor(events: seq<Json>, key: Key): seq<string> {
    if events == [] then []
    else
      var (before, e) := (events[..|events| - 1], events[|events| - 1]);
      var earlier := TextsFor(before, key);
      if Carries(e, key) then earlier + [TextIn(e, earlier == [])]
      else if Closes(e, key) && !Touches(before, key) && (TextIn(e, false) != "" || SpeaksOfCall(e)) then
        [TextIn(e, true)]
      else earlier
  }

  // The names as the step classifies them.
  lemma TextKinds()
    ensures KindOf("response.output_text.delta") == Texts(false, false)
    ensures KindOf("response.output_text.done") == Texts(true, false)
    ensures KindOf("response.refusal.delta") == Texts(false, true)
    ensures KindOf("response.refusal.done") == Texts(true, true)
  {}

  lemma ReasoningKinds()
    ensures KindOf("response.reasoning_text.delta") == Texts(false, false)
    ensures KindOf("response.reasoning_text.done") == Texts(true, false)
    ensures KindOf("response.reasoning_summary_text.delta") == Texts(false, false)
    ensures KindOf("response.reasoning_summary_text.done") == Texts(true, false)
  {}

  lemma CallKinds()
    ensures KindOf("response.function_call_arguments.delta") == Arguments(false)
    ensures KindOf("response.function_call_arguments.done") == Arguments(true)
  {}

  lemma CarriersAre(event: Json)
    ensures Carries(event, KeyOf(event)) <==>
      (Type(event).Texts? || Type(event).Arguments?) && !Type(event).done
  {
    hide KeyOf;
  }

  lemma ClosersAre(event: Json)
    ensures Closes(event, KeyOf(event)) <==>
      (Type(event).Texts? || Type(event).Arguments?) && Type(event).done
  {
    hide KeyOf;
  }

  lemma CallersAre(event: Json)
    ensures SpeaksOfCall(event) <==> Type(event).Arguments?
  {}

  lemma DeltaTexts(event: Json, first: bool)
    requires Carries(event, KeyOf(event))
    ensures TextIn(event, first) ==
      (if Type(event) == Texts(false, true) && first then REFUSED else "") + StrOr(At(event, "delta"))
  {
    TextKinds();
    ReasoningKinds();
    CallKinds();
    hide KeyOf, KindOf;
    assert "" + StrOr(At(event, "delta")) == StrOr(At(event, "delta"));
  }

  lemma DoneTexts(event: Json, first: bool)
    requires Closes(event, KeyOf(event))
    ensures TextIn(event, first) ==
      (if Type(event) == Texts(true, true) && first then REFUSED else "")
      + StrOr(At(event, ContentField(Type(event))))
  {
    TextKinds();
    ReasoningKinds();
    CallKinds();
    hide KeyOf, KindOf;
    assert forall t: string :: "" + t == t;
  }

  lemma NamesAre(event: Json)
    ensures var kind := Type(event);
      && (Carries(event, KeyOf(event)) <==> (kind.Texts? || kind.Arguments?) && !kind.done)
      && (Closes(event, KeyOf(event)) <==> (kind.Texts? || kind.Arguments?) && kind.done)
      && (SpeaksOfCall(event) <==> kind.Arguments?)
    ensures var kind := Type(event);
      kind.Texts? || kind.Arguments? ==>
        var text := StrOr(At(event, ContentField(kind)));
        TextIn(event, true) == (if kind.Texts? && kind.refusal then REFUSED + text else text)
        && TextIn(event, false) == text
  {
    CarriersAre(event);
    ClosersAre(event);
    CallersAre(event);
    hide KeyOf, Carries, Closes, SpeaksOfCall, TextIn, KindOf;
    if Carries(event, KeyOf(event)) {
      DeltaTexts(event, true);
      DeltaTexts(event, false);
    } else if Closes(event, KeyOf(event)) {
      DoneTexts(event, true);
      DoneTexts(event, false);
    }
    assert forall t: string :: "" + t == t;
  }

  lemma OwnKey(event: Json, key: Key)
    ensures Carries(event, key) <==> KeyOf(event) == key && Carries(event, KeyOf(event))
    ensures Closes(event, key) <==> KeyOf(event) == key && Closes(event, KeyOf(event))
  {
    hide KeyOf;
  }

  lemma StepDeltas(p: Parts, event: Json)
    requires PartsStep(p, event).Some?
    ensures var key := KeyOf(event);
      PartsStep(p, event).value.deltas == p.deltas + (if Carries(event, key) || Closes(event, key) then {key} else {})
  {
    NamesAre(event);
    hide KindOf, KeyOf, Begun, Log, Carries, Closes, TextIn, SpeaksOfCall, ContentField;
  }

  lemma StepPieces(p: Parts, event: Json, key: Key)
    requires PartsStep(p, event).Some?
    ensures var was := Pieces(p.journal.sent, Part(key));
      Pieces(PartsStep(p, event).value.journal.sent, Part(key)) ==
        if Carries(event, key) then was + [TextIn(event, was == [])]
        else if Closes(event, key) && key !in p.deltas && (TextIn(event, false) != "" || SpeaksOfCall(event)) then
          was + [TextIn(event, true)]
        else was
  {
    NamesAre(event);
    OwnKey(event, key);
    hide Pieces, KeyOf, TextStep, ArgumentsStep, Begun, TextIn, KindOf, Carries, Closes, SpeaksOfCall;
    var kind, k := Type(event), KeyOf(event);
    if kind.Texts? {
      TextPieces(p, event, k, key);
    } else if kind.Arguments? {
      ArgumentPieces(p, event, k, key);
    }
  }

  lemma TextPieces(p: Parts, event: Json, k: Key, key: Key)
    requires Type(event).Texts? && TextStep(p, Type(event), k, event).Some?
    ensures var (was, kind) := (Pieces(p.journal.sent, Part(key)), Type(event));
      Pieces(TextStep(p, kind, k, event).value.journal.sent, Part(key)) ==
        if k == key && !kind.done then was + [TextIn(event, was == [])]
        else if k == key && key !in p.deltas && TextIn(event, false) != "" then was + [TextIn(event, true)]
        else was
  {
    NamesAre(event);
    hide Pieces, KindOf, Log, ContentField, TextIn, Carries, Closes, SpeaksOfCall, KeyOf;
    LogIs(p.journal, TextSent(k, TextIn(event, Type(event).done || !Begun(p, k))), Part(key));
  }

  lemma ArgumentPieces(p: Parts, event: Json, k: Key, key: Key)
    requires Type(event).Arguments? && ArgumentsStep(p, Type(event), k, event).Some?
    ensures var (was, kind) := (Pieces(p.journal.sent, Part(key)), Type(event));
      Pieces(ArgumentsStep(p, kind, k, event).value.journal.sent, Part(key)) ==
        (if k == key && (!kind.done || key !in p.deltas) then was + [TextIn(event, true)] else was)
    ensures TextIn(event, true) == TextIn(event, false)
  {
    NamesAre(event);
    hide Pieces, KindOf, Log, TextIn, Carries, Closes, SpeaksOfCall, KeyOf, ContentField;
    var id := At(event, "item_id");
    if id.Str? && id.text in p.callIds {
      LogIs(p.journal, ArgumentsSent(k, p.callIds[id.text], TextIn(event, true)), Part(key));
    }
  }

  // For every stream the fragments of a key are the batch reading of all its events: no text is
  // counted both as deltas and again when it is closed.
  lemma {:induction false} FragmentsAreTexts(p: Parts, events: seq<Json>, key: Key)
    requires p.deltas == {} && p.journal == NEW && PartsRun(p, events).Some?
    ensures var q := PartsRun(p, events).value;
      && Pieces(q.journal.sent, Part(key)) == TextsFor(events, key)
      && (key in q.deltas <==> Touches(events, key))
      && (!Touches(events, key) ==> TextsFor(events, key) == [])
  {
    hide Pieces, PartsStep, KeyOf, KindOf, TextIn, Carries, Closes, SpeaksOfCall;
    if events == [] {
      NothingPieced(key);
    } else {
      var before, e := events[..|events| - 1], events[|events| - 1];
      var q := PartsRun(p, before).value;
      FragmentsAreTexts(p, before, key);
      StepDeltas(q, e);
      StepPieces(q, e, key);
      assert events == before + [e];
      OwnKey(e, key);
      assert Touches(events, key) <==> Touches(before, key) || Carries(e, key) || Closes(e, key);
    }
  }

  lemma NothingPieced(key: Key)
    ensures Pieces(NEW.sent, Part(key)) == []
  {}

  // ---- completion: fragments fill in the items that carry no content of their own

  predicate KeyLe(a: Key, b: Key) {
    || a.index < b.index
    || (a.index == b.index && (a.part < b.part || (a.part == b.part && (a.reasoning ==> b.reasoning))))
  }

  lemma KeyOrder()
    ensures Order(KeyLe)
  {}

  function KeysOf(fragments: map<Key, string>): (keys: seq<Key>)
    ensures forall k <- keys :: k in fragments
  {
    KeyOrder();
    KeysAre(fragments.Keys, KeyLe);
    Keys(fragments.Keys, KeyLe)
  }

  function Stub(reasoning: bool): Json {
    if reasoning then Object(map["type" := Str("reasoning"), "summary" := Array([])])
    else Object(map["type" := Str("message"), "role" := Str("assistant"), "content" := Array([])])
  }

  predicate LacksArguments(item: Json) {
    At(item, "type") == Str("function_call") && StrOr(At(item, "arguments")) == ""
  }

  function FillOne(items: map<nat, Json>, key: Key, text: string): map<nat, Json> {
    var item := if key.index in items then items[key.index] else Stub(key.reasoning);
    items[key.index := if LacksArguments(item) then With(item, "arguments", Str(text)) else item]
  }

  function Fill(items: map<nat, Json>, keys: seq<Key>, fragments: map<Key, string>): map<nat, Json>
    requires forall k <- keys :: k in fragments
  {
    if keys == [] then items
    else
      var (before, k) := (keys[..|keys| - 1], keys[|keys| - 1]);
      assert k in keys && forall x <- before :: x in keys;
      FillOne(Fill(items, before, fragments), k, fragments[k])
  }

  // The fragments of one output index, and of those the reasoning or the other ones.
  function IndexTexts(keys: seq<Key>, fragments: map<Key, string>, i: nat): seq<string>
    requires forall k <- keys :: k in fragments
  {
    if keys == [] then []
    else
      var (before, k) := (keys[..|keys| - 1], keys[|keys| - 1]);
      assert k in keys && forall x <- before :: x in keys;
      IndexTexts(before, fragments, i) + (if k.index == i then [fragments[k]] else [])
  }

  function KindTexts(keys: seq<Key>, fragments: map<Key, string>, i: nat, reasoning: bool): seq<string>
    requires forall k <- keys :: k in fragments
  {
    if keys == [] then []
    else
      var (before, k) := (keys[..|keys| - 1], keys[|keys| - 1]);
      assert k in keys && forall x <- before :: x in keys;
      KindTexts(before, fragments, i, reasoning)
        + (if k.index == i && k.reasoning == reasoning then [fragments[k]] else [])
  }

  function FirstNonEmpty(texts: seq<string>): string {
    if texts == [] then "" else if texts[0] != "" then texts[0] else FirstNonEmpty(texts[1..])
  }

  function FirstReasoning(keys: seq<Key>, i: nat): bool {
    if keys == [] then false else if keys[0].index == i then keys[0].reasoning else FirstReasoning(keys[1..], i)
  }

  lemma FirstNonEmptyMore(texts: seq<string>, t: string)
    ensures FirstNonEmpty(texts + [t]) == if FirstNonEmpty(texts) != "" then FirstNonEmpty(texts) else t
  {
    if texts != [] {
      assert (texts + [t])[1..] == texts[1..] + [t];
    }
  }

  lemma FirstReasoningMore(keys: seq<Key>, k: Key, i: nat)
    ensures FirstReasoning(keys + [k], i) ==
      if (exists x <- keys :: x.index == i) then FirstReasoning(keys, i) else k.index == i && k.reasoning
  {
    if keys != [] {
      assert (keys + [k])[1..] == keys[1..] + [k];
      assert keys == [keys[0]] + keys[1..];
    } else {
      assert (keys + [k])[1..] == [];
    }
  }

  // An item keeps its own arguments; one without takes the first nonempty fragment of its index.
  ghost predicate FilledFrom(item: Json, texts: seq<string>, filled: Json) {
    if LacksArguments(item) && texts != [] then
      && StrOr(At(filled, "arguments")) == FirstNonEmpty(texts)
      && forall f: string :: f != "arguments" ==> At(filled, f) == At(item, f)
    else filled == item
  }

  lemma FilledStep(item: Json, texts: seq<string>, filled: Json, t: string)
    requires FilledFrom(item, texts, filled)
    ensures FilledFrom(item, texts + [t], if LacksArguments(filled) then With(filled, "arguments", Str(t)) else filled)
  {
    FirstNonEmptyMore(texts, t);
    hide With, FirstNonEmpty;
    assert FirstNonEmpty([]) == "" by { NoneNonEmpty(); }
  }

  lemma NoneNonEmpty()
    ensures FirstNonEmpty([]) == ""
  {}

  lemma {:induction false} FillKeys(items: map<nat, Json>, keys: seq<Key>, fragments: map<Key, string>, i: nat)
    requires forall k <- keys :: k in fragments
    ensures i in Fill(items, keys, fragments) <==> i in items || exists k <- keys :: k.index == i
    ensures IndexTexts(keys, fragments, i) == [] <==> forall k <- keys :: k.index != i
  {
    if keys != [] {
      var before, k := keys[..|keys| - 1], keys[|keys| - 1];
      assert keys == before + [k];
      FillKeys(items, before, fragments, i);
    }
  }

  // Every index with an item or a fragment has an item, at first an empty message or reasoning item,
  // with its own arguments or those of its fragments.
  lemma {:induction false} FillIs(items: map<nat, Json>, keys: seq<Key>, fragments: map<Key, string>, i: nat)
    requires forall k <- keys :: k in fragments
    requires i in Fill(items, keys, fragments)
    ensures FilledFrom(if i in items then items[i] else Stub(FirstReasoning(keys, i)), IndexTexts(keys, fragments, i),
      Fill(items, keys, fragments)[i])
  {
    hide Stub, FilledFrom, FirstReasoning, LacksArguments, With;
    if keys == [] {
      Unfilled(items[i]);
    } else {
      var before, k := keys[..|keys| - 1], keys[|keys| - 1];
      assert keys == before + [k];
      assert forall x <- before :: x in keys;
      FillKeys(items, before, fragments, i);
      FirstReasoningMore(before, k, i);
      StubIsFull(k.reasoning);
      if i in Fill(items, before, fragments) {
        FillIs(items, before, fragments, i);
        if k.index == i {
          var item := if i in items then items[i] else Stub(FirstReasoning(before, i));
          FilledStep(item, IndexTexts(before, fragments, i), Fill(items, before, fragments)[i], fragments[k]);
        } else {
          assert IndexTexts(keys, fragments, i) == IndexTexts(before, fragments, i);
        }
      } else {
        Unfilled(Stub(k.reasoning));
        FilledStep(Stub(k.reasoning), [], Stub(k.reasoning), fragments[k]);
      }
    }
  }

  lemma Unfilled(item: Json)
    ensures FilledFrom(item, [], item)
  {}

  lemma StubIsFull(reasoning: bool)
    ensures !LacksArguments(Stub(reasoning))
  {}

  predicate Textless(v: Json) {
    forall part <- ItemsOr(v) :: StrOr(At(part, "text")) == ""
  }

  function TextPart(kind: string, text: string): Json {
    Object(map["type" := Str(kind), "text" := Str(text)])
  }

  // A message or reasoning item without text of its own takes the fragments of its index and kind.
  function WithParts(item: Json, i: nat, keys: seq<Key>, fragments: map<Key, string>): Json
    requires forall k <- keys :: k in fragments
  {
    var reasoning := At(item, "type") == Str("reasoning");
    var field := if reasoning then "summary" else "content";
    var texts := KindTexts(keys, fragments, i, reasoning);
    if !reasoning && At(item, "type") != Str("message") then item
    else if !Textless(At(item, field)) || texts == [] then item
    else
      var kind := if reasoning then "summary_text" else "output_text";
      With(item, field, Array(seq(|texts|, n requires 0 <= n < |texts| => TextPart(kind, texts[n]))))
  }

  function Completed(items: map<nat, Json>, fragments: map<Key, string>): map<nat, Json> {
    var keys := KeysOf(fragments);
    var filled := Fill(items, keys, fragments);
    map i | i in filled :: WithParts(filled[i], i, keys, fragments)
  }

  // The terminal response, with the accumulated items for output unless it has its own.
  function CompletedBody(body: Json, response: Json, completed: map<nat, Json>): Json {
    var body := Merged(body, response);
    if ItemsOr(At(body, "output")) == [] && completed != map[]
    then With(body, "output", Array(Values(completed)))
    else body
  }

  // The announced deltas of a key, in the part that the completed item shows for it.
  lemma {:induction false} KindTextsAreDeltas(
    p: Parts, keys: seq<Key>, fragments: map<Key, string>, i: nat, reasoning: bool)
    requires PartsMatch(p, fragments) && forall k <- keys :: k in fragments
    ensures forall k <- keys :: k.index == i && k.reasoning == reasoning ==>
      Joined(p.journal, Part(k)) in KindTexts(keys, fragments, i, reasoning)
    ensures forall t <- KindTexts(keys, fragments, i, reasoning) ::
      exists k <- keys :: k.index == i && k.reasoning == reasoning && t == Joined(p.journal, Part(k))
  {
    hide Joined, Begun;
    if keys != [] {
      var before, k := keys[..|keys| - 1], keys[|keys| - 1];
      assert keys == before + [k];
      KindTextsAreDeltas(p, before, fragments, i, reasoning);
    }
  }
}
