/**
 What each event of a Responses stream does, by its name (client.rs), and what a completed response shows
 of the texts and arguments received.
 */
module ResponseLaws {
  import opened Wrappers
  import opened Jsons
  import opened OrderedMaps
  import opened StreamJournals
  import opened StreamParts

  // ---- the key of an event

  lemma {:induction false} Absent(s: string)
    requires forall n :: 0 <= n && n + 9 <= |s| ==> s[n] != 'r' || s[n + 2] != 'a'
    ensures !Contains(s, "reasoning")
  {
    if "reasoning" <= s {
      Begins(s);
    } else if s != "" {
      forall n | 0 <= n && n + 9 <= |s[1..]| ensures s[1..][n] != 'r' || s[1..][n + 2] != 'a' {
        assert s[1..][n] == s[n + 1] && s[1..][n + 2] == s[n + 3];
      }
      Absent(s[1..]);
    }
  }

  lemma Begins(s: string)
    requires "reasoning" <= s
    ensures |s| >= 9 && s[0] == 'r' && s[2] == 'a'
  {
    assert "reasoning"[0] == 'r' && "reasoning"[2] == 'a';
  }

  lemma {:induction false} ContainsAt(s: string, part: string, n: nat)
    requires n <= |s| && part <= s[n..]
    ensures Contains(s, part)
  {
    if n > 0 {
      assert s[1..][n - 1..] == s[n..];
      ContainsAt(s[1..], part, n - 1);
    }
  }

  lemma OutputNames()
    ensures !Contains("response.output_text.delta", "reasoning")
    ensures !Contains("response.output_text.done", "reasoning")
  {
    hide Contains;
    Absent("response.output_text.delta");
    Absent("response.output_text.done");
  }

  lemma RefusalNames()
    ensures !Contains("response.refusal.delta", "reasoning")
    ensures !Contains("response.refusal.done", "reasoning")
  {
    hide Contains;
    Absent("response.refusal.delta");
    Absent("response.refusal.done");
  }

  lemma CallDeltaName()
    ensures !Contains("response.function_call_arguments.delta", "reasoning")
  {
    hide Contains;
    Absent("response.function_call_arguments.delta");
  }

  lemma CallDoneName()
    ensures !Contains("response.function_call_arguments.done", "reasoning")
  {
    hide Contains;
    Absent("response.function_call_arguments.done");
  }

  lemma ReasoningNames()
    ensures Contains("response.reasoning_text.delta", "reasoning")
    ensures Contains("response.reasoning_text.done", "reasoning")
    ensures Contains("response.reasoning_summary_text.delta", "reasoning")
    ensures Contains("response.reasoning_summary_text.done", "reasoning")
  {
    ContainsAt("response.reasoning_text.delta", "reasoning", 9);
    ContainsAt("response.reasoning_text.done", "reasoning", 9);
    ContainsAt("response.reasoning_summary_text.delta", "reasoning", 9);
    ContainsAt("response.reasoning_summary_text.done", "reasoning", 9);
  }

  // A number of an event, if it is one that fits.
  function NumberAt(event: Json, field: string): Option<nat> {
    match At(event, field)
    case Number(n) => if 0 <= n <= 0xFFFF_FFFF_FFFF_FFFF then Some(n) else None
    case _ => None
  }

  lemma KeyPlace(event: Json)
    ensures KeyOf(event).index == (match NumberAt(event, "output_index") case Some(i) => i case None => 0)
    ensures KeyOf(event).part ==
      match NumberAt(event, "content_index")
      case Some(i) => i
      case None => match NumberAt(event, "summary_index") case Some(i) => i case None => 0
    ensures KeyOf(event).reasoning == Contains(Name(event), "reasoning")
  {
    hide Contains;
  }

  // A text is kept under its output index, its content or summary index, and its kind.
  lemma KeyLaw(event: Json)
    ensures KeyOf(event).index == (match NumberAt(event, "output_index") case Some(i) => i case None => 0)
    ensures KeyOf(event).part ==
      match NumberAt(event, "content_index")
      case Some(i) => i
      case None => match NumberAt(event, "summary_index") case Some(i) => i case None => 0
    ensures
      Name(event) in {"response.output_text.delta", "response.output_text.done", "response.refusal.delta",
        "response.refusal.done", "response.function_call_arguments.delta",
        "response.function_call_arguments.done"} ==>
      !KeyOf(event).reasoning
    ensures
      Name(event) in {"response.reasoning_text.delta", "response.reasoning_text.done",
        "response.reasoning_summary_text.delta", "response.reasoning_summary_text.done"} ==>
      KeyOf(event).reasoning
  {
    KeyPlace(event);
    hide Contains, KeyOf, NumberAt, Name;
    OutputNames();
    RefusalNames();
    CallDeltaName();
    CallDoneName();
    ReasoningNames();
  }

  // ---- the events, one by one

  // A text announced by one delta and kept under its key.
  function Grown(p: Parts, key: Key, text: string, announced: ModelEvent): Parts {
    p.(deltas := p.deltas + {key},
      journal := Journal(p.journal.sent + [Sent(Part(key), text, Some(announced))], p.journal.archived))
  }

  lemma OtherKinds()
    ensures KindOf("response.created") == Progress && KindOf("response.in_progress") == Progress
    ensures KindOf("response.output_item.added") == ItemChanged && KindOf("response.output_item.done") == ItemChanged
    ensures KindOf("response.completed") == Ended && KindOf("response.incomplete") == Ended
    ensures KindOf("response.failed") == Failed && KindOf("response.cancelled") == Failed
  {}

  // A delta of the output text is announced as text and kept as it is.
  lemma OutputTextLaw(p: Parts, event: Json, t: string)
    requires At(event, "type") == Str("response.output_text.delta")
    ensures At(event, "delta") == Str(t) ==>
      PartsStep(p, event) == Some(Grown(p, KeyOf(event), t, TextDelta(t)))
    ensures !At(event, "delta").Str? ==> PartsStep(p, event) == None
  {
    TextKinds();
    KeyLaw(event);
    hide KindOf, KeyOf;
  }

  lemma ReasoningLaw(p: Parts, event: Json, t: string)
    requires At(event, "type")
      in {Str("response.reasoning_text.delta"), Str("response.reasoning_summary_text.delta")}
    ensures At(event, "delta") == Str(t) ==>
      PartsStep(p, event) == Some(Grown(p, KeyOf(event), t, ReasoningDelta(t)))
    ensures !At(event, "delta").Str? ==> PartsStep(p, event) == None
  {
    ReasoningKinds();
    KeyLaw(event);
    hide KindOf, KeyOf;
  }

  // The first delta of a refusal is introduced as one.
  lemma RefusalLaw(p: Parts, event: Json, t: string)
    requires At(event, "type") == Str("response.refusal.delta")
    ensures At(event, "delta") == Str(t) ==>
      var shown := if Pieces(p.journal.sent, Part(KeyOf(event))) == [] then "The model refused to respond: " + t else t;
      PartsStep(p, event) == Some(Grown(p, KeyOf(event), shown, TextDelta(shown)))
    ensures !At(event, "delta").Str? ==> PartsStep(p, event) == None
  {
    TextKinds();
    KeyLaw(event);
    hide KindOf, KeyOf;
  }

  // A closing text counts where nothing came for its key before, and only if it is not empty.
  ghost predicate ClosesWith(p: Parts, event: Json, field: string, introduction: string, reasoning: bool) {
    var (key, text) := (KeyOf(event), At(event, field));
    if key in p.deltas then PartsStep(p, event) == Some(p)
    else if !text.Str? then PartsStep(p, event) == None
    else if text.text == "" then PartsStep(p, event) == Some(p.(deltas := p.deltas + {key}))
    else
      var shown := introduction + text.text;
      PartsStep(p, event) == Some(Grown(p, key, shown, if reasoning then ReasoningDelta(shown) else TextDelta(shown)))
  }

  lemma ClosedTextLaw(p: Parts, event: Json)
    ensures At(event, "type") == Str("response.output_text.done") ==> ClosesWith(p, event, "text", "", false)
    ensures At(event, "type") in {Str("response.reasoning_text.done"), Str("response.reasoning_summary_text.done")} ==>
      ClosesWith(p, event, "text", "", true)
    ensures At(event, "type") == Str("response.refusal.done") ==>
      ClosesWith(p, event, "refusal", "The model refused to respond: ", false)
  {
    TextKinds();
    ReasoningKinds();
    KeyLaw(event);
    hide KindOf, KeyOf;
    assert forall t: string :: "" + t == t;
  }

  // Arguments are announced under the call ID of the item they name, and refused without one; a closing
  // event with all of them counts where nothing came for its key before.
  lemma ArgumentsLaw(p: Parts, event: Json, closing: bool)
    requires At(event, "type") == Str(
      if closing then "response.function_call_arguments.done" else "response.function_call_arguments.delta")
    ensures var (id, text) := (At(event, "item_id"), At(event, if closing then "arguments" else "delta"));
      PartsStep(p, event) ==
        if closing && KeyOf(event) in p.deltas then Some(p)
        else if !id.Str? || id.text !in p.callIds || !text.Str? then None
        else Some(Grown(p, KeyOf(event), text.text, ToolArgumentsDelta(p.callIds[id.text], text.text)))
  {
    CallKinds();
    hide KindOf, KeyOf;
  }

  // An item is kept under its output index, the last one counts; a call must name itself and its item.
  lemma ItemLaw(p: Parts, event: Json)
    requires At(event, "type") in {Str("response.output_item.added"), Str("response.output_item.done")}
    ensures var item := At(event, "item");
      var (id, call, q) := (At(item, "id"), At(item, "call_id"), p.(items := p.items[KeyOf(event).index := item]));
      PartsStep(p, event) ==
        if !item.Object? then None
        else if At(item, "type") != Str("function_call") then Some(q)
        else if id.Str? && call.Str? then Some(q.(callIds := p.callIds[id.text := call.text]))
        else None
  {
    OtherKinds();
    hide KindOf, KeyOf;
  }

  // The header of a response, field by field.
  lemma HeaderLaw(p: Parts, event: Json)
    requires At(event, "type") in {Str("response.created"), Str("response.in_progress")} && p.body.Object?
    ensures PartsStep(p, event).Some? && PartsStep(p, event).value == p.(body := PartsStep(p, event).value.body)
    ensures var (response, body) := (At(event, "response"), PartsStep(p, event).value.body);
      forall f :: At(body, f) ==
        (if f in {"id", "model", "metadata"} && Has(response, f) then At(response, f) else At(p.body, f))
  {
    OtherKinds();
    HeaderFields(p.body, At(event, "response"));
    hide KindOf, KeyOf;
  }

  lemma HeaderFields(body: Json, from: Json)
    requires body.Object?
    ensures forall f ::
      At(Copied(body, from, ["id", "model", "metadata"]), f) ==
      (if f in {"id", "model", "metadata"} && Has(from, f) then At(from, f) else At(body, f))
  {
    assert ["id", "model", "metadata"][..2] == ["id", "model"] && ["id", "model"][..1] == ["id"] && ["id"][..0] == [];
    hide At;
    var a := Copied(body, from, []);
    var b := Copied(body, from, ["id"]);
    var c := Copied(body, from, ["id", "model"]);
    assert a == body;
  }

  predicate Ignorable(name: string) {
    name !in {"response.created", "response.in_progress", "response.output_text.delta",
      "response.output_text.done", "response.refusal.delta", "response.refusal.done", "response.reasoning_text.delta",
      "response.reasoning_text.done", "response.reasoning_summary_text.delta", "response.reasoning_summary_text.done",
      "response.function_call_arguments.delta", "response.function_call_arguments.done", "response.output_item.added",
      "response.output_item.done", "response.failed", "response.cancelled"}
  }

  // A failed or cancelled response ends the stream with an error; every other event is ignored.
  lemma RestLaw(p: Parts, event: Json)
    ensures At(event, "type") in {Str("response.failed"), Str("response.cancelled")} ==> PartsStep(p, event) == None
    ensures Ignorable(Name(event)) ==> PartsStep(p, event) == Some(p)
  {
    OtherKinds();
    if Ignorable(Name(event)) { OtherNames(Name(event)); }
    hide KindOf, KeyOf;
  }

  lemma OtherNames(name: string)
    requires Ignorable(name)
    ensures KindOf(name) in {Ended, Ignored}
  {}

  // ---- a completed response

  ghost predicate Rising(parts: seq<nat>) {
    forall a, b :: 0 <= a < b < |parts| ==> parts[a] < parts[b]
  }

  // The parts with a text of one output index and kind, in their order.
  ghost predicate PartsOf(parts: seq<nat>, keys: set<Key>, i: nat, reasoning: bool) {
    Rising(parts) && forall n :: n in parts <==> Key(i, n, reasoning) in keys
  }

  ghost predicate InOrder(keys: seq<Key>) {
    forall a, b :: 0 <= a < b < |keys| ==> KeyLe(keys[a], keys[b]) && keys[a] != keys[b]
  }

  // The texts of these parts, in their order.
  ghost predicate TextsOf(
    texts: seq<string>, fragments: map<Key, string>, parts: seq<nat>, i: nat, reasoning: bool)
  {
    |texts| == |parts| && forall n :: 0 <= n < |parts| ==>
      Key(i, parts[n], reasoning) in fragments && texts[n] == fragments[Key(i, parts[n], reasoning)]
  }

  lemma {:induction false} TextsInOrder(
    keys: seq<Key>, fragments: map<Key, string>, parts: seq<nat>, i: nat, reasoning: bool)
    requires InOrder(keys) && forall k <- keys :: k in fragments
    requires Rising(parts) && forall n :: n in parts <==> Key(i, n, reasoning) in keys
    ensures TextsOf(KindTexts(keys, fragments, i, reasoning), fragments, parts, i, reasoning)
  {
    if keys == [] {
      if parts != [] { SomePart(parts); }
    } else {
      hide TextsOf;
      var before, k := keys[..|keys| - 1], keys[|keys| - 1];
      assert k in keys && forall x <- before :: x in keys;
      if k.index == i && k.reasoning == reasoning {
        LastPart(keys, parts, i, reasoning);
        TextsInOrder(before, fragments, parts[..|parts| - 1], i, reasoning);
        OneMoreText(KindTexts(before, fragments, i, reasoning), fragments, parts, i, reasoning);
        assert k == Key(i, k.part, reasoning);
      } else {
        SameParts(keys, i, reasoning);
        TextsInOrder(before, fragments, parts, i, reasoning);
        assert KindTexts(before, fragments, i, reasoning) + [] == KindTexts(before, fragments, i, reasoning);
      }
    }
  }

  lemma OneMoreText(texts: seq<string>, fragments: map<Key, string>, parts: seq<nat>, i: nat, reasoning: bool)
    requires parts != [] && TextsOf(texts, fragments, parts[..|parts| - 1], i, reasoning)
    requires Key(i, parts[|parts| - 1], reasoning) in fragments
    ensures TextsOf(texts + [fragments[Key(i, parts[|parts| - 1], reasoning)]], fragments, parts, i, reasoning)
  {}

  lemma SameParts(keys: seq<Key>, i: nat, reasoning: bool)
    requires keys != [] && !(keys[|keys| - 1].index == i && keys[|keys| - 1].reasoning == reasoning)
    ensures forall n: nat :: Key(i, n, reasoning) in keys <==> Key(i, n, reasoning) in keys[..|keys| - 1]
  {
    assert keys == keys[..|keys| - 1] + [keys[|keys| - 1]];
  }

  lemma SomePart(parts: seq<nat>)
    requires parts != []
    ensures exists n :: n in parts
  {
    assert parts[0] in parts;
  }

  lemma WithoutLast<T(!new)>(s: seq<T>)
    requires s != [] && forall a, b :: 0 <= a < b < |s| ==> s[a] != s[b]
    ensures forall x :: x in s[..|s| - 1] <==> x in s && x != s[|s| - 1]
  {
    assert s == s[..|s| - 1] + [s[|s| - 1]];
    assert forall a :: 0 <= a < |s| - 1 ==> s[..|s| - 1][a] == s[a];
  }

  // The last key of the kind is that of the last part.
  lemma LastPart(keys: seq<Key>, parts: seq<nat>, i: nat, reasoning: bool)
    requires keys != [] && InOrder(keys)
    requires Rising(parts) && forall n :: n in parts <==> Key(i, n, reasoning) in keys
    requires var k := keys[|keys| - 1]; k.index == i && k.reasoning == reasoning
    ensures parts != [] && parts[|parts| - 1] == keys[|keys| - 1].part
    ensures forall n :: n in parts[..|parts| - 1] <==> Key(i, n, reasoning) in keys[..|keys| - 1]
  {
    var k := keys[|keys| - 1];
    assert k == Key(i, k.part, reasoning) && k in keys;
    assert k.part in parts;
    var last := parts[|parts| - 1];
    SamePart(keys, parts, i, reasoning, last);
    WithoutLast(parts);
    WithoutLast(keys);
  }

  lemma SamePart(keys: seq<Key>, parts: seq<nat>, i: nat, reasoning: bool, last: nat)
    requires keys != [] && InOrder(keys) && Rising(parts) && parts != [] && last == parts[|parts| - 1]
    requires Key(i, last, reasoning) in keys && keys[|keys| - 1].part in parts
    requires var k := keys[|keys| - 1]; k.index == i && k.reasoning == reasoning
    ensures last == keys[|keys| - 1].part
  {
    var a :| 0 <= a < |keys| && keys[a] == Key(i, last, reasoning);
    var b :| 0 <= b < |parts| && parts[b] == keys[|keys| - 1].part;
    assert a < |keys| - 1 ==> KeyLe(keys[a], keys[|keys| - 1]);
  }

  lemma KeysInOrder(fragments: map<Key, string>)
    ensures InOrder(KeysOf(fragments)) && forall k :: k in KeysOf(fragments) <==> k in fragments
  {
    KeyOrder();
    KeysAre(fragments.Keys, KeyLe);
  }

  lemma CompletedIs(items: map<nat, Json>, fragments: map<Key, string>, i: nat)
    ensures var (keys, filled) := (KeysOf(fragments), Fill(items, KeysOf(fragments), fragments));
      && (i in Completed(items, fragments) <==> i in filled)
      && (i in filled ==> Completed(items, fragments)[i] == WithParts(filled[i], i, keys, fragments))
  {
    hide KeysOf, Fill, WithParts;
  }

  // There is an item for every index with an item or a text.
  lemma IndexLaw(items: map<nat, Json>, fragments: map<Key, string>, i: nat)
    ensures i in Completed(items, fragments) <==> i in items || exists k <- fragments :: k.index == i
  {
    hide KeysOf, Fill, WithParts, Completed;
    KeysInOrder(fragments);
    FillKeys(items, KeysOf(fragments), fragments, i);
    CompletedIs(items, fragments, i);
  }

  predicate WithoutText(part: Json) {
    At(part, "text").Str? ==> At(part, "text") == Str("")
  }

  // No part of a field has a text.
  predicate Silent(item: Json, field: string) {
    At(item, field).Array? ==> forall part <- At(item, field).items :: WithoutText(part)
  }

  // What a silent item shows: its texts as parts of its field, in their order, and else itself.
  ghost predicate Shows(
    item: Json, shown: Json, fragments: map<Key, string>, parts: seq<nat>, i: nat, reasoning: bool)
  {
    var (field, kind) := if reasoning then ("summary", "summary_text") else ("content", "output_text");
    && (forall f: string :: f != field ==> At(shown, f) == At(item, f))
    && At(shown, field).Array? && |At(shown, field).items| == |parts|
    && forall n :: 0 <= n < |parts| ==>
      Key(i, parts[n], reasoning) in fragments &&
      At(shown, field).items[n] ==
        Object(map["type" := Str(kind), "text" := Str(fragments[Key(i, parts[n], reasoning)])])
  }

  // A silent message or reasoning item shows the texts of its index and kind, if there are any; every
  // other item stays, but for a call without arguments.
  lemma ItemShownLaw(items: map<nat, Json>, fragments: map<Key, string>, i: nat, parts: seq<nat>)
    requires i in items && PartsOf(parts, fragments.Keys, i, At(items[i], "type") == Str("reasoning"))
    ensures i in Completed(items, fragments)
    ensures var (item, shown) := (items[i], Completed(items, fragments)[i]);
      var reasoning := At(item, "type") == Str("reasoning");
      if At(item, "type") in {Str("message"), Str("reasoning")} then
        if parts != [] && Silent(item, if reasoning then "summary" else "content")
        then Shows(item, shown, fragments, parts, i, reasoning)
        else shown == item
      else At(item, "type") != Str("function_call") || StrOr(At(item, "arguments")) != "" ==> shown == item
  {
    var keys := KeysOf(fragments);
    KeysInOrder(fragments);
    FillKeys(items, keys, fragments, i);
    FillIs(items, keys, fragments, i);
    CompletedIs(items, fragments, i);
    var item := items[i];
    NotLacking(item);
    TextsInOrder(keys, fragments, parts, i, At(item, "type") == Str("reasoning"));
    hide Fill, KeysOf, IndexTexts, Completed, FirstReasoning, Stub, KindTexts, FirstNonEmpty;
    if At(item, "type") in {Str("message"), Str("reasoning")} ||
      At(item, "type") != Str("function_call") || StrOr(At(item, "arguments")) != "" {
      assert Fill(items, keys, fragments)[i] == item;
      PartsShown(item, i, keys, fragments, parts);
    }
  }

  lemma NotLacking(item: Json)
    ensures LacksArguments(item) <==> At(item, "type") == Str("function_call") && StrOr(At(item, "arguments")) == ""
  {}

  lemma PartsShown(item: Json, i: nat, keys: seq<Key>, fragments: map<Key, string>, parts: seq<nat>)
    requires forall k <- keys :: k in fragments
    requires var texts := KindTexts(keys, fragments, i, At(item, "type") == Str("reasoning"));
      |texts| == |parts| && forall n :: 0 <= n < |parts| ==>
        var k := Key(i, parts[n], At(item, "type") == Str("reasoning"));
        k in fragments && texts[n] == fragments[k]
    ensures var shown := WithParts(item, i, keys, fragments);
      var reasoning := At(item, "type") == Str("reasoning");
      if At(item, "type") in {Str("message"), Str("reasoning")} && parts != []
        && Silent(item, if reasoning then "summary" else "content")
      then Shows(item, shown, fragments, parts, i, reasoning)
      else shown == item
  {
    var reasoning := At(item, "type") == Str("reasoning");
    var texts := KindTexts(keys, fragments, i, reasoning);
    SilentIs(item, if reasoning then "summary" else "content");
    hide KindTexts, Silent, Textless;
    assert texts == [] <==> parts == [];
  }

  lemma SilentIs(item: Json, field: string)
    ensures Silent(item, field) <==> Textless(At(item, field))
  {}

  // The first of an index's texts: of its least part, and of two kinds of one part the plain text.
  ghost predicate FirstOf(k: Key, fragments: map<Key, string>) {
    k in fragments && forall x <- fragments :: x.index == k.index ==>
      k.part < x.part || (k.part == x.part && (k.reasoning ==> x.reasoning))
  }

  lemma {:induction false} FirstKind(keys: seq<Key>, fragments: map<Key, string>, k: Key)
    requires InOrder(keys) && (forall x <- keys :: x in fragments) && FirstOf(k, fragments) && k in keys
    ensures FirstReasoning(keys, k.index) == k.reasoning
  {
    if keys[0].index == k.index {
      var a :| 0 <= a < |keys| && keys[a] == k;
      assert keys[0] in keys && (0 < a ==> KeyLe(keys[0], keys[a]));
    } else {
      assert forall x <- keys[1..] :: x in keys;
      FirstKind(keys[1..], fragments, k);
    }
  }

  function NewItem(reasoning: bool): Json {
    if reasoning then Object(map["type" := Str("reasoning"), "summary" := Array([])])
    else Object(map["type" := Str("message"), "role" := Str("assistant"), "content" := Array([])])
  }

  lemma StubIs(reasoning: bool)
    ensures var item := Stub(reasoning);
      && item == NewItem(reasoning) && At(item, "type") == Str(if reasoning then "reasoning" else "message")
      && !LacksArguments(item) && Silent(item, if reasoning then "summary" else "content")
  {}

  lemma FilledNew(items: map<nat, Json>, keys: seq<Key>, fragments: map<Key, string>, k: Key)
    requires InOrder(keys) && (forall x :: x in keys <==> x in fragments)
    requires k.index !in items && FirstOf(k, fragments)
    ensures k.index in Fill(items, keys, fragments) && Fill(items, keys, fragments)[k.index] == NewItem(k.reasoning)
  {
    FillKeys(items, keys, fragments, k.index);
    FillIs(items, keys, fragments, k.index);
    FirstKind(keys, fragments, k);
    StubIs(k.reasoning);
    hide Stub, NewItem, Fill, FirstReasoning, IndexTexts, FirstNonEmpty, LacksArguments;
  }

  // Texts without an item make one: a message of the assistant or a reasoning item, as the first of them.
  lemma NewItemLaw(items: map<nat, Json>, fragments: map<Key, string>, k: Key, parts: seq<nat>)
    requires k.index !in items && FirstOf(k, fragments) && PartsOf(parts, fragments.Keys, k.index, k.reasoning)
    ensures k.index in Completed(items, fragments)
    ensures Shows(NewItem(k.reasoning), Completed(items, fragments)[k.index], fragments, parts, k.index, k.reasoning)
  {
    var (keys, i) := (KeysOf(fragments), k.index);
    KeysInOrder(fragments);
    FilledNew(items, keys, fragments, k);
    CompletedIs(items, fragments, i);
    StubIs(k.reasoning);
    TextsInOrder(keys, fragments, parts, i, k.reasoning);
    assert k == Key(i, k.part, k.reasoning) && k.part in parts;
    hide Fill, KeysOf, Completed, Stub, NewItem, KindTexts, Silent, FirstOf, Shows, WithParts;
    PartsShown(NewItem(k.reasoning), i, keys, fragments, parts);
  }

  // A call without arguments gets the first text of its index that is not empty.
  lemma CallShownLaw(items: map<nat, Json>, fragments: map<Key, string>, k: Key)
    requires k in fragments && forall x <- fragments :: x.index == k.index ==> x == k
    requires k.index in items && At(items[k.index], "type") == Str("function_call")
    requires At(items[k.index], "arguments") == Str("") || !At(items[k.index], "arguments").Str?
    ensures k.index in Completed(items, fragments)
    ensures var (item, shown) := (items[k.index], Completed(items, fragments)[k.index]);
      StrOr(At(shown, "arguments")) == fragments[k]
      && forall f: string :: f != "arguments" ==> At(shown, f) == At(item, f)
  {
    var (keys, i) := (KeysOf(fragments), k.index);
    KeysInOrder(fragments);
    FillKeys(items, keys, fragments, i);
    FillIs(items, keys, fragments, i);
    CompletedIs(items, fragments, i);
    OneText(keys, fragments, k);
    NotLacking(items[i]);
    hide Fill, KeysOf, IndexTexts, Completed, FirstReasoning, Stub, KindTexts, FirstNonEmpty;
    assert At(Fill(items, keys, fragments)[i], "type") == Str("function_call");
  }

  lemma {:induction false} OneText(keys: seq<Key>, fragments: map<Key, string>, k: Key)
    requires k in fragments && (forall x <- keys :: x in fragments && (x.index == k.index ==> x == k)) && InOrder(keys)
    ensures IndexTexts(keys, fragments, k.index) == if k in keys then [fragments[k]] else []
    ensures FirstNonEmpty([fragments[k]]) == fragments[k]
  {
    assert [fragments[k]][1..] == [];
    if keys != [] {
      var before, last := keys[..|keys| - 1], keys[|keys| - 1];
      assert last in keys && forall x <- before :: x in keys;
      OneText(before, fragments, k);
      WithoutLast(keys);
    }
  }

  // The body handed over: every field of the terminal response over what came before, and for output,
  // where there is none, the items in the order of their indexes.
  lemma BodyLaw(body: Json, response: Json, completed: map<nat, Json>, f: string)
    requires body.Object? && response.Object?
    ensures var given := if Has(response, f) then At(response, f) else At(body, f);
      At(CompletedBody(body, response, completed), f) ==
        if f == "output" && (!given.Array? || given.items == []) && completed != map[]
        then Array(Values(completed)) else given
    ensures forall a, b :: 0 <= a < b < |Indexes(completed)| ==> Indexes(completed)[a] < Indexes(completed)[b]
  {
    MergedField(body, response, f);
    MergedField(body, response, "output");
    hide Merged;
  }

  lemma MergedField(body: Json, response: Json, f: string)
    requires body.Object? && response.Object?
    ensures At(Merged(body, response), f) == if Has(response, f) then At(response, f) else At(body, f)
  {}
}
