/**
 What a provider stream means (client.rs): every fragment of the stream, in order, tagged with the
 part of the response it belongs to, and the delta it is announced by. The three wire protocols
 differ in how events become fragments.
 */
module StreamJournals {
  import opened Wrappers
  import opened Jsons

  datatype Protocol = Chat | Anthropic | Responses
  datatype Key = Key(index: nat, part: nat, reasoning: bool)
  datatype Response = Response(items: seq<Json>, rest: Json)
  datatype ModelEvent =
    | TextDelta(delta: string)
    | ReasoningDelta(delta: string)
    | ToolArgumentsDelta(callId: string, delta: string)
    | ItemDone(item: Json)
    | Complete(response: Response)

  // Functions of other files: JSON parsing, provider errors, reasoning details, and the response made
  // of a finished body.
  datatype Codec = Codec(
    parse: string -> Option<Json>,
    refused: Json -> bool,
    detailsText: Json -> string,
    response: (Json, Protocol) -> Option<Response>)

  const REFUSED := "The model refused to respond: "

  // The part of a response a fragment belongs to. An archived tool entry keeps its fragments.
  datatype Owner =
    | Text
    | Reasoning
    | Entry(index: nat, field: string)
    | Archived(place: nat, field: string)
    | Block(index: nat, field: string)
    | Part(key: Key)

  datatype Sent = Sent(owner: Owner, delta: string, event: Option<ModelEvent>)
  datatype Journal = Journal(sent: seq<Sent>, archived: nat)

  const NEW: Journal := Journal([], 0)

  function Log(j: Journal, s: Sent): Journal {
    j.(sent := j.sent + [s])
  }

  // The fragments of one owner.
  function Pieces(sent: seq<Sent>, o: Owner): seq<string> {
    if sent == [] then []
    else
      var (before, s) := (sent[..|sent| - 1], sent[|sent| - 1]);
      if s.owner == o then Pieces(before, o) + [s.delta] else Pieces(before, o)
  }

  function Join(pieces: seq<string>): string {
    if pieces == [] then "" else Join(pieces[..|pieces| - 1]) + pieces[|pieces| - 1]
  }

  function Joined(j: Journal, o: Owner): string {
    Join(Pieces(j.sent, o))
  }

  function Latest(j: Journal, o: Owner): string {
    var pieces := Pieces(j.sent, o);
    if pieces == [] then "" else pieces[|pieces| - 1]
  }

  // The deltas announced to the caller.
  function Emitted(sent: seq<Sent>): seq<ModelEvent> {
    if sent == [] then []
    else
      var (before, s) := (sent[..|sent| - 1], sent[|sent| - 1]);
      if s.event.Some? then Emitted(before) + [s.event.value] else Emitted(before)
  }

  // A fragment is announced by the delta of its kind with the same text; some are not announced.
  predicate Announced(s: Sent) {
    match s.owner
    case Text => s.event == Some(TextDelta(s.delta))
    case Reasoning => s.event == Some(ReasoningDelta(s.delta))
    case Entry(_, f) => ArgumentsOrSilent(s, f == "arguments")
    case Archived(_, f) => ArgumentsOrSilent(s, f == "arguments")
    case Block(_, f) =>
      if f == "text" then s.event == Some(TextDelta(s.delta))
      else if f == "thinking" then s.event == Some(ReasoningDelta(s.delta))
      else ArgumentsOrSilent(s, f == "input")
    case Part(key) =>
      || s.event == Some(if key.reasoning then ReasoningDelta(s.delta) else TextDelta(s.delta))
      || ArgumentsOrSilent(s, true)
  }

  predicate ArgumentsOrSilent(s: Sent, arguments: bool) {
    if arguments then s.event.Some? && s.event.value.ToolArgumentsDelta? && s.event.value.delta == s.delta
    else s.event.None?
  }

  predicate AllAnnounced(sent: seq<Sent>) {
    forall s <- sent :: Announced(s)
  }

  lemma PiecesLog(sent: seq<Sent>, s: Sent, o: Owner)
    ensures Pieces(sent + [s], o) == if s.owner == o then Pieces(sent, o) + [s.delta] else Pieces(sent, o)
  {
    assert (sent + [s])[..|sent|] == sent;
  }

  lemma JoinMore(pieces: seq<string>, p: string)
    ensures Join(pieces + [p]) == Join(pieces) + p
  {
    assert (pieces + [p])[..|pieces|] == pieces;
  }

  lemma LogIs(j: Journal, s: Sent, o: Owner)
    ensures Pieces(Log(j, s).sent, o) == if s.owner == o then Pieces(j.sent, o) + [s.delta] else Pieces(j.sent, o)
    ensures Joined(Log(j, s), o) == if s.owner == o then Joined(j, o) + s.delta else Joined(j, o)
    ensures Latest(Log(j, s), o) == if s.owner == o then s.delta else Latest(j, o)
  {
    PiecesLog(j.sent, s, o);
    JoinMore(Pieces(j.sent, o), s.delta);
  }

  lemma EmittedLog(j: Journal, s: Sent)
    ensures Emitted(Log(j, s).sent) == Emitted(j.sent) + (if s.event.Some? then [s.event.value] else [])
  {
    assert (j.sent + [s])[..|j.sent|] == j.sent;
  }

  // ---- Chat: text, reasoning and tool entries by index

  datatype ChatRun = ChatRun(body: Json, journal: Journal, finish: Option<string>)

  function RetagOne(s: Sent, i: nat, place: nat): Sent {
    if s.owner.Entry? && s.owner.index == i then s.(owner := Archived(place, s.owner.field)) else s
  }

  function Retag(sent: seq<Sent>, i: nat, place: nat): seq<Sent> {
    if sent == [] then []
    else Retag(sent[..|sent| - 1], i, place) + [RetagOne(sent[|sent| - 1], i, place)]
  }

  // The entry at index `i` is complete: another call ID took its index.
  function Archive(j: Journal, i: nat): Journal {
    Journal(Retag(j.sent, i, j.archived), j.archived + 1)
  }

  function CurrentId(j: Journal, i: nat): string {
    Latest(j, Entry(i, "id"))
  }

  predicate Reused(id: Json, current: string) {
    id.Str? && id.text != "" && current != "" && current != id.text
  }

  // One element of a chunk's tool_calls; none when it lacks an index or its arguments an ID.
  function CallJournal(j: Journal, call: Json): Option<Journal> {
    match U64(At(call, "index"))
    case None => None
    case Some(i) =>
      var id, name, arguments := At(call, "id"), At(At(call, "function"), "name"),
        At(At(call, "function"), "arguments");
      var j := if Reused(id, CurrentId(j, i)) then Archive(j, i) else j;
      var j := Log(j, Sent(Entry(i, "call"), "", None));
      var j := if id.Str? then Log(j, Sent(Entry(i, "id"), id.text, None)) else j;
      var j := if name.Str? then Log(j, Sent(Entry(i, "name"), name.text, None)) else j;
      if !arguments.Str? then Some(j)
      else if CurrentId(j, i) == "" then None
      else
        var event := ToolArgumentsDelta(CurrentId(j, i), arguments.text);
        Some(Log(j, Sent(Entry(i, "arguments"), arguments.text, Some(event))))
  }

  function CallsJournal(j: Journal, calls: seq<Json>): Option<Journal> {
    if calls == [] then Some(j)
    else
      match CallsJournal(j, calls[..|calls| - 1])
      case None => None
      case Some(before) => CallJournal(before, calls[|calls| - 1])
  }

  // The first nonempty of the three reasoning fields, or the text of the details.
  function ReasoningIn(delta: Json, codec: Codec): string {
    if StrOr(At(delta, "reasoning")) != "" then StrOr(At(delta, "reasoning"))
    else if StrOr(At(delta, "reasoning_content")) != "" then StrOr(At(delta, "reasoning_content"))
    else if StrOr(At(delta, "reasoning_text")) != "" then StrOr(At(delta, "reasoning_text"))
    else codec.detailsText(At(delta, "reasoning_details"))
  }

  function LogText(j: Journal, text: string): Journal {
    if text == "" then j else Log(j, Sent(Text, text, Some(TextDelta(text))))
  }

  function LogReasoning(j: Journal, text: string): Journal {
    if text == "" then j else Log(j, Sent(Reasoning, text, Some(ReasoningDelta(text))))
  }

  // A refusal that opens the text is introduced as one.
  function Introduced(refusal: string, before: string): string {
    if refusal != "" && before == "" then REFUSED + refusal else refusal
  }

  function TextsJournal(j: Journal, delta: Json, codec: Codec): Journal {
    var j := LogReasoning(j, ReasoningIn(delta, codec));
    var j := LogText(j, StrOr(At(delta, "content")));
    LogText(j, Introduced(StrOr(At(delta, "refusal")), Joined(j, Text)))
  }

  predicate FirstChoice(choice: Json) {
    U64(At(choice, "index")) in {None, Some(0)}
  }

  function ChoiceJournal(j: Journal, choice: Json, codec: Codec): Option<Journal> {
    var delta := At(choice, "delta");
    if !FirstChoice(choice) then None
    else CallsJournal(TextsJournal(j, delta, codec), ItemsOr(At(delta, "tool_calls")))
  }

  // Opaque reasoning is replaced, reasoning details accumulate.
  function ChoiceBody(body: Json, delta: Json): Json {
    var hidden := At(delta, "reasoning_opaque");
    var body := if hidden.Str? then With(body, "reasoning_opaque", hidden) else body;
    var details := At(delta, "reasoning_details");
    var all := ItemsOr(At(body, "reasoning_details")) + ItemsOr(details);
    if details.Array? then With(body, "reasoning_details", Array(all)) else body
  }

  function ChoiceRun(c: ChatRun, choice: Json, codec: Codec): Option<ChatRun> {
    match ChoiceJournal(c.journal, choice, codec)
    case None => None
    case Some(j) =>
      var reason := At(choice, "finish_reason");
      Some(ChatRun(ChoiceBody(c.body, At(choice, "delta")), j, if reason.Str? then Some(reason.text) else c.finish))
  }

  function ChoicesRun(c: ChatRun, choices: seq<Json>, codec: Codec): Option<ChatRun> {
    if choices == [] then Some(c)
    else
      match ChoicesRun(c, choices[..|choices| - 1], codec)
      case None => None
      case Some(before) => ChoiceRun(before, choices[|choices| - 1], codec)
  }

  function HeadersOf(body: Json, event: Json): Json {
    var body := Copied(body, event, ["id", "model", "metadata", "end_turn"]);
    if At(event, "usage").Object? then With(body, "usage", At(event, "usage")) else body
  }

  function ChatStep(c: ChatRun, event: Json, codec: Codec): Option<ChatRun> {
    var choices := At(event, "choices");
    if !choices.Array? then None
    else ChoicesRun(c.(body := HeadersOf(c.body, event)), choices.items, codec)
  }

  function ToolJson(id: string, name: string, arguments: string): Json {
    Object(map["id" := Str(id), "type" := Str("function"),
      "function" := Object(map["name" := Str(name), "arguments" := Str(arguments)])])
  }

  // The tool entry a journal describes: its last ID and all its name and argument fragments.
  function EntryOf(j: Journal, i: nat): Json {
    ToolJson(Latest(j, Entry(i, "id")), Joined(j, Entry(i, "name")), Joined(j, Entry(i, "arguments")))
  }

  function ArchivedOf(j: Journal, place: nat): Json {
    ToolJson(Latest(j, Archived(place, "id")), Joined(j, Archived(place, "name")),
      Joined(j, Archived(place, "arguments")))
  }

  predicate IsLive(j: Journal, i: nat) {
    Pieces(j.sent, Entry(i, "call")) != []
  }

  ghost predicate ChatOwners(j: Journal) {
    && AllAnnounced(j.sent)
    && (forall s <- j.sent :: !s.owner.Block? && !s.owner.Part? && (s.owner.Archived? ==> s.owner.place < j.archived))
    && (forall s <- j.sent :: s.owner.Entry? ==> IsLive(j, s.owner.index))
  }

  // The accumulated fields are what the journal describes.
  ghost predicate ChatMatches(j: Journal, text: string, reasoning: string, tools: map<nat, Json>, archived: seq<Json>) {
    && ChatOwners(j)
    && text == Joined(j, Text) && reasoning == Joined(j, Reasoning)
    && ToolsMatch(j, tools, archived)
  }

  ghost predicate ToolsMatch(j: Journal, tools: map<nat, Json>, archived: seq<Json>) {
    && |archived| == j.archived
    && (forall i: nat :: i in tools <==> IsLive(j, i))
    && (forall i :: i in tools ==> tools[i] == EntryOf(j, i))
    && (forall k :: 0 <= k < |archived| ==> archived[k] == ArchivedOf(j, k))
  }

  // What the announced text deltas say together.
  function TextOf(events: seq<ModelEvent>): string {
    if events == [] then ""
    else
      var (before, e) := (TextOf(events[..|events| - 1]), events[|events| - 1]);
      if e.TextDelta? then before + e.delta else before
  }

  function ReasoningOf(events: seq<ModelEvent>): string {
    if events == [] then ""
    else
      var (before, e) := (ReasoningOf(events[..|events| - 1]), events[|events| - 1]);
      if e.ReasoningDelta? then before + e.delta else before
  }

  lemma TextOfMore(events: seq<ModelEvent>, e: ModelEvent)
    ensures TextOf(events + [e]) == if e.TextDelta? then TextOf(events) + e.delta else TextOf(events)
    ensures ReasoningOf(events + [e]) ==
      if e.ReasoningDelta? then ReasoningOf(events) + e.delta else ReasoningOf(events)
  {
    assert (events + [e])[..|events|] == events;
  }

  // In a chat stream the announced deltas are exactly the text and the reasoning of the body.
  lemma {:induction false} ChatDeltasReassemble(j: Journal)
    requires AllAnnounced(j.sent) && forall s <- j.sent :: !s.owner.Block? && !s.owner.Part?
    ensures TextOf(Emitted(j.sent)) == Joined(j, Text)
    ensures ReasoningOf(Emitted(j.sent)) == Joined(j, Reasoning)
    decreases |j.sent|
  {
    if j.sent != [] {
      var s := j.sent[|j.sent| - 1];
      var before := j.(sent := j.sent[..|j.sent| - 1]);
      assert j == Log(before, s);
      assert s in j.sent;
      ChatDeltasReassemble(before);
      LogIs(before, s, Text);
      LogIs(before, s, Reasoning);
      EmittedLog(before, s);
      if s.event.Some? {
        TextOfMore(Emitted(before.sent), s.event.value);
      }
    }
  }

  // ---- chat: what one fragment does to the matched fields

  lemma NoPieces(sent: seq<Sent>, o: Owner)
    requires forall s <- sent :: s.owner != o
    ensures Pieces(sent, o) == []
  {
    if sent != [] {
      assert sent[|sent| - 1] in sent;
      assert forall s <- sent[..|sent| - 1] :: s in sent;
      NoPieces(sent[..|sent| - 1], o);
    }
  }

  lemma NothingYet()
    ensures ChatMatches(NEW, "", "", map[], [])
  {}

  lemma FreshEntry(j: Journal, i: nat)
    requires ChatOwners(j) && !IsLive(j, i)
    ensures EntryOf(j, i) == ToolJson("", "", "")
  {
    hide Pieces;
    forall f: string ensures Pieces(j.sent, Entry(i, f)) == [] {
      NoPieces(j.sent, Entry(i, f));
    }
    assert Join([]) == "";
  }

  lemma OwnersLogged(j: Journal, s: Sent)
    requires ChatOwners(j) && Announced(s)
    requires s.owner in {Text, Reasoning} || (s.owner.Entry? && (s.owner.field == "call" || IsLive(j, s.owner.index)))
    ensures ChatOwners(Log(j, s))
  {
    hide Pieces, Announced;
    var k := Log(j, s);
    forall t | t in k.sent
      ensures Announced(t) && !t.owner.Block? && !t.owner.Part? && (t.owner.Archived? ==> t.owner.place < k.archived)
      ensures t.owner.Entry? ==> IsLive(k, t.owner.index)
    {
      if t.owner.Entry? {
        LogIs(j, s, Entry(t.owner.index, "call"));
      }
    }
  }

  // A text or reasoning fragment extends its text and touches no tool entry.
  lemma TextLogged(j: Journal, s: Sent, text: string, reasoning: string, tools: map<nat, Json>, archived: seq<Json>)
    requires ChatMatches(j, text, reasoning, tools, archived)
    requires s.owner in {Text, Reasoning} && Announced(s)
    ensures ChatMatches(Log(j, s), if s.owner == Text then text + s.delta else text,
      if s.owner == Reasoning then reasoning + s.delta else reasoning, tools, archived)
  {
    hide Pieces, Joined, Latest, Log, ChatOwners, Announced, ToolJson;
    OwnersLogged(j, s);
    LogIs(j, s, Text);
    LogIs(j, s, Reasoning);
    forall i: nat, f: string
      ensures Latest(Log(j, s), Entry(i, f)) == Latest(j, Entry(i, f))
      ensures Joined(Log(j, s), Entry(i, f)) == Joined(j, Entry(i, f))
      ensures Pieces(Log(j, s).sent, Entry(i, f)) == Pieces(j.sent, Entry(i, f))
    {
      LogIs(j, s, Entry(i, f));
    }
    forall k: nat, f: string
      ensures Latest(Log(j, s), Archived(k, f)) == Latest(j, Archived(k, f))
      ensures Joined(Log(j, s), Archived(k, f)) == Joined(j, Archived(k, f))
    {
      LogIs(j, s, Archived(k, f));
    }
    assert Log(j, s).archived == j.archived by { LogArchived(j, s); }
  }

  lemma LogArchived(j: Journal, s: Sent)
    ensures Log(j, s).archived == j.archived
  {}

  // A fragment of an entry changes that entry alone.
  lemma EntryLogged(j: Journal, s: Sent, text: string, reasoning: string, tools: map<nat, Json>, archived: seq<Json>)
    requires ChatMatches(j, text, reasoning, tools, archived)
    requires s.owner.Entry? && Announced(s) && (s.owner.field == "call" || IsLive(j, s.owner.index))
    ensures var i := s.owner.index;
      ChatMatches(Log(j, s), text, reasoning, tools[i := EntryOf(Log(j, s), i)], archived)
  {
    hide Pieces, Joined, Latest, Log, ChatOwners, Announced, ToolJson;
    var i := s.owner.index;
    OwnersLogged(j, s);
    LogIs(j, s, Text);
    LogIs(j, s, Reasoning);
    LogArchived(j, s);
    forall k: nat, f: string | k != i
      ensures Latest(Log(j, s), Entry(k, f)) == Latest(j, Entry(k, f))
      ensures Joined(Log(j, s), Entry(k, f)) == Joined(j, Entry(k, f))
      ensures Pieces(Log(j, s).sent, Entry(k, f)) == Pieces(j.sent, Entry(k, f))
    {
      LogIs(j, s, Entry(k, f));
    }
    forall k: nat, f: string
      ensures Latest(Log(j, s), Archived(k, f)) == Latest(j, Archived(k, f))
      ensures Joined(Log(j, s), Archived(k, f)) == Joined(j, Archived(k, f))
    {
      LogIs(j, s, Archived(k, f));
    }
    LogIs(j, s, Entry(i, "call"));
  }

  lemma EntryField(j: Journal, s: Sent)
    requires s.owner.Entry?
    ensures var i := s.owner.index;
      EntryOf(Log(j, s), i) == ToolJson(
        if s.owner.field == "id" then s.delta else Latest(j, Entry(i, "id")),
        if s.owner.field == "name" then Joined(j, Entry(i, "name")) + s.delta else Joined(j, Entry(i, "name")),
        if s.owner.field == "arguments" then Joined(j, Entry(i, "arguments")) + s.delta
        else Joined(j, Entry(i, "arguments")))
  {
    hide Pieces, Joined, Latest, Log;
    var i := s.owner.index;
    LogIs(j, s, Entry(i, "id"));
    LogIs(j, s, Entry(i, "name"));
    LogIs(j, s, Entry(i, "arguments"));
  }

  lemma {:induction false} RetagIs(sent: seq<Sent>, i: nat, place: nat, o: Owner)
    requires forall s <- sent :: s.owner.Archived? ==> s.owner.place < place
    ensures Pieces(Retag(sent, i, place), o) ==
      if o.Entry? && o.index == i then []
      else if o.Archived? && o.place == place then Pieces(sent, Entry(i, o.field))
      else Pieces(sent, o)
  {
    if sent != [] {
      var before, s := sent[..|sent| - 1], sent[|sent| - 1];
      assert s in sent && forall t <- before :: t in sent;
      RetagIs(before, i, place, o);
      PiecesLog(Retag(before, i, place), RetagOne(s, i, place), o);
    }
  }

  lemma {:induction false} RetagEmits(sent: seq<Sent>, i: nat, place: nat)
    ensures Emitted(Retag(sent, i, place)) == Emitted(sent)
  {
    if sent != [] {
      var before, s := sent[..|sent| - 1], sent[|sent| - 1];
      RetagEmits(before, i, place);
      var r := Retag(before, i, place);
      assert (r + [RetagOne(s, i, place)])[..|r|] == r;
    }
  }

  lemma {:induction false} RetagAt(sent: seq<Sent>, i: nat, place: nat, n: nat)
    requires n < |sent|
    ensures |Retag(sent, i, place)| == |sent| && Retag(sent, i, place)[n] == RetagOne(sent[n], i, place)
  {
    RetagLength(sent, i, place);
    RetagLength(sent[..|sent| - 1], i, place);
    if n < |sent| - 1 {
      RetagAt(sent[..|sent| - 1], i, place, n);
    }
  }

  lemma RetagLength(sent: seq<Sent>, i: nat, place: nat)
    ensures |Retag(sent, i, place)| == |sent|
  {}

  lemma ArchivePieces(j: Journal, i: nat, o: Owner)
    requires ChatOwners(j)
    ensures Pieces(Archive(j, i).sent, o) == if o.Entry? && o.index == i then []
      else if o.Archived? && o.place == j.archived then Pieces(j.sent, Entry(i, o.field))
      else Pieces(j.sent, o)
  {
    RetagIs(j.sent, i, j.archived, o);
  }

  lemma ArchiveOwners(j: Journal, i: nat)
    requires ChatOwners(j)
    ensures ChatOwners(Archive(j, i))
  {
    hide Pieces, Retag, Announced;
    var r := Archive(j, i);
    RetagLength(j.sent, i, j.archived);
    forall n | 0 <= n < |r.sent|
      ensures var s := r.sent[n];
        && Announced(s) && !s.owner.Block? && !s.owner.Part? && (s.owner.Archived? ==> s.owner.place < r.archived)
        && (s.owner.Entry? ==> IsLive(r, s.owner.index))
    {
      RetagAt(j.sent, i, j.archived, n);
      var t := j.sent[n];
      assert t in j.sent;
      RetagAnnounced(t, i, j.archived);
      if t.owner.Entry? {
        ArchivePieces(j, i, Entry(t.owner.index, "call"));
      }
    }
  }

  lemma RetagAnnounced(s: Sent, i: nat, place: nat)
    requires Announced(s)
    ensures Announced(RetagOne(s, i, place))
  {}

  // Archiving moves an entry with all its fragments behind the earlier archived ones.
  lemma ArchiveKeeps(j: Journal, i: nat, text: string, reasoning: string, tools: map<nat, Json>, archived: seq<Json>)
    requires ChatMatches(j, text, reasoning, tools, archived) && i in tools
    ensures ChatMatches(Archive(j, i), text, reasoning, tools - {i}, archived + [tools[i]])
    ensures Emitted(Archive(j, i).sent) == Emitted(j.sent)
  {
    hide Pieces, Retag, ChatOwners, Announced, ToolJson, Archive, Join;
    var r := Archive(j, i);
    ArchiveOwners(j, i);
    ArchiveCounts(j, i);
    ArchivePieces(j, i, Text);
    ArchivePieces(j, i, Reasoning);
    forall k: nat, f: string
      ensures Pieces(r.sent, Entry(k, f)) == if k == i then [] else Pieces(j.sent, Entry(k, f))
    {
      ArchivePieces(j, i, Entry(k, f));
    }
    forall k: nat | k < |archived| + 1
      ensures (archived + [tools[i]])[k] == ArchivedOf(r, k)
    {
      ArchivedEntry(j, i, k);
    }
    forall k | k in tools && k != i ensures tools[k] == EntryOf(r, k) {}
    hide Joined, Latest, ArchivedOf, EntryOf;
  }

  lemma ArchivedEntry(j: Journal, i: nat, k: nat)
    requires ChatOwners(j)
    ensures ArchivedOf(Archive(j, i), k) == if k == j.archived then EntryOf(j, i) else ArchivedOf(j, k)
  {
    hide Pieces, ChatOwners, Archive, ToolJson;
    ArchivePieces(j, i, Archived(k, "id"));
    ArchivePieces(j, i, Archived(k, "name"));
    ArchivePieces(j, i, Archived(k, "arguments"));
  }

  lemma ArchiveCounts(j: Journal, i: nat)
    ensures Archive(j, i).archived == j.archived + 1
    ensures Emitted(Archive(j, i).sent) == Emitted(j.sent)
  {
    RetagEmits(j.sent, i, j.archived);
  }

  // ---- chat: whole streams

  // The chunks of a stream, from its beginning.
  function ChatFold(events: seq<Json>, codec: Codec): Option<ChatRun> {
    if events == [] then Some(ChatRun(EMPTY, NEW, None))
    else
      match ChatFold(events[..|events| - 1], codec)
      case None => None
      case Some(before) => ChatStep(before, events[|events| - 1], codec)
  }
}
