/**
 The calls a stream ends with (client.rs): when each argument delta was announced under the ID its call
 ends up with, decided by the fragments received, and what the deltas of one ID are together.
 */
module StreamCalls {
  import opened Wrappers
  import opened Jsons
  import opened StreamJournals
  import opened StreamNames

  // ---- chat: what the fragments say of each index

  // The ID in force at an index and the ID its call's arguments came under, empty before any.
  datatype Slot = Slot(id: string, spoken: string)

  const UNUSED := Slot("", "")

  function SlotAt(slots: map<nat, Slot>, i: nat): Slot {
    if i in slots then slots[i] else UNUSED
  }

  predicate Settled(slot: Slot) {
    slot.spoken in {"", slot.id}
  }

  function Given(slot: Slot, id: Json): Slot {
    if id.Str? then slot.(id := id.text) else slot
  }

  // One call fragment. None when it splits a call: another call takes the index, or arguments arrive,
  // while the ID in force is not the one the earlier arguments came under.
  function Track(slots: map<nat, Slot>, call: Json): Option<map<nat, Slot>> {
    var id, arguments := At(call, "id"), At(At(call, "function"), "arguments");
    match U64(At(call, "index"))
    case None => None
    case Some(i) =>
      var slot := SlotAt(slots, i);
      var taken := Reused(id, slot.id);
      if taken && !Settled(slot) then None
      else
        var slot := Given(if taken then UNUSED else slot, id);
        if !arguments.Str? then Some(slots[i := slot])
        else if !Settled(slot) then None
        else Some(slots[i := Slot(slot.id, slot.id)])
  }

  function TrackAll(slots: map<nat, Slot>, calls: seq<Json>): Option<map<nat, Slot>> {
    if calls == [] then Some(slots)
    else
      match TrackAll(slots, calls[..|calls| - 1])
      case None => None
      case Some(before) => Track(before, calls[|calls| - 1])
  }

  // No call is split, and every call ends under the ID its arguments came under.
  predicate KeepsCalls(calls: seq<Json>) {
    match TrackAll(map[], calls)
    case None => false
    case Some(slots) => forall i :: i in slots ==> Settled(slots[i])
  }

  // The call fragments of a stream, in order.
  function FragmentsIn(choices: seq<Json>): seq<Json> {
    if choices == [] then []
    else FragmentsIn(choices[..|choices| - 1]) + CallsOf(choices[|choices| - 1])
  }

  function CallFragments(events: seq<Json>): seq<Json> {
    if events == [] then []
    else CallFragments(events[..|events| - 1]) + FragmentsIn(ItemsOr(At(events[|events| - 1], "choices")))
  }

  lemma {:induction false} TrackMore(slots: map<nat, Slot>, calls: seq<Json>, more: seq<Json>)
    ensures TrackAll(slots, calls + more) ==
      match TrackAll(slots, calls) case None => None case Some(now) => TrackAll(now, more)
  {
    hide Track;
    if more == [] {
      assert calls + more == calls;
    } else {
      var last := |more| - 1;
      TrackMore(slots, calls, more[..last]);
      assert (calls + more)[..|calls + more| - 1] == calls + more[..last];
    }
  }

  // ---- the journal of a stream and what its fragments say

  predicate Speaks(s: Sent) {
    s.event.Some? && s.event.value.ToolArgumentsDelta?
  }

  ghost predicate SpokenAs(j: Journal, slots: map<nat, Slot>, s: Sent) {
    Speaks(s) ==>
      match s.owner
      case Entry(i, _) => s.event.value.callId == SlotAt(slots, i).spoken
      case Archived(k, _) => s.event.value.callId == Latest(j, Archived(k, "id"))
      case _ => true
  }

  ghost predicate SlotIs(j: Journal, slot: Slot, i: nat) {
    slot.id == CurrentId(j, i) && (slot.spoken == "" <==> Pieces(j.sent, Entry(i, "arguments")) == [])
  }

  ghost predicate Follows(j: Journal, slots: map<nat, Slot>) {
    && (forall i: nat :: SlotIs(j, SlotAt(slots, i), i))
    && (forall s <- j.sent :: SpokenAs(j, slots, s))
  }

  // A call announced under two IDs, or one finished under another ID than it was announced for.
  ghost predicate Split(j: Journal, s: Sent, t: Sent) {
    && Speaks(s) && Speaks(t) && s.owner == t.owner && (s.owner.Entry? || s.owner.Archived?)
    && (s.event.value.callId != t.event.value.callId
      || (s.owner.Archived? && s.event.value.callId != Latest(j, Archived(s.owner.place, "id"))))
  }

  ghost predicate Lost(j: Journal) {
    exists s <- j.sent, t <- j.sent :: Split(j, s, t)
  }

  ghost predicate Outcome(j: Journal, slots: Option<map<nat, Slot>>) {
    ChatOwners(j) && match slots case None => Lost(j) case Some(now) => Follows(j, now)
  }

  lemma LostIsMisnamed(j: Journal)
    requires Lost(j)
    ensures !NamesItsCall(j)
  {
    hide Latest;
  }

  lemma LostLogs(j: Journal, s: Sent)
    requires Lost(j) && !s.owner.Archived?
    ensures Lost(Log(j, s))
  {
    hide Latest;
    var x, y :| x in j.sent && y in j.sent && Split(j, x, y);
    if x.owner.Archived? { LogIs(j, s, Archived(x.owner.place, "id")); }
    assert x in Log(j, s).sent && y in Log(j, s).sent && Split(Log(j, s), x, y);
  }

  lemma LostArchives(j: Journal, i: nat)
    requires ChatOwners(j) && Lost(j)
    ensures Lost(Archive(j, i))
  {
    hide Latest, Retag;
    var r := Archive(j, i);
    var n, m :| 0 <= n < |j.sent| && 0 <= m < |j.sent| && Split(j, j.sent[n], j.sent[m]);
    RetagAt(j.sent, i, j.archived, n);
    RetagAt(j.sent, i, j.archived, m);
    if j.sent[n].owner.Archived? {
      assert j.sent[n] in j.sent;
      ArchivedAs(j, i, j.sent[n].owner.place);
    }
    assert r.sent[n] in r.sent && r.sent[m] in r.sent && Split(r, r.sent[n], r.sent[m]);
  }

  lemma ArchivedAs(j: Journal, i: nat, k: nat)
    requires ChatOwners(j)
    ensures Latest(Archive(j, i), Archived(k, "id")) ==
      if k == j.archived then CurrentId(j, i) else Latest(j, Archived(k, "id"))
  {
    ArchivePieces(j, i, Archived(k, "id"));
  }

  // Another call takes the index.
  lemma ArchiveFollows(j: Journal, slots: map<nat, Slot>, i: nat)
    requires ChatOwners(j) && Follows(j, slots)
    ensures if Settled(SlotAt(slots, i)) then Follows(Archive(j, i), slots[i := UNUSED]) else Lost(Archive(j, i))
  {
    hide Pieces, Latest, Retag, Announced;
    var r := Archive(j, i);
    var now := slots[i := UNUSED];
    RetagLength(j.sent, i, j.archived);
    if Settled(SlotAt(slots, i)) {
      forall k: nat ensures SlotIs(r, SlotAt(now, k), k) {
        ArchivedSlot(j, slots, i, k);
      }
      forall n | 0 <= n < |r.sent|
        ensures SpokenAs(r, now, r.sent[n])
      {
        RetagAt(j.sent, i, j.archived, n);
        ArchivedSpoken(j, slots, i, j.sent[n]);
      }
    } else {
      var s := Spoken(j, slots, i);
      var n :| 0 <= n < |j.sent| && j.sent[n] == s;
      RetagAt(j.sent, i, j.archived, n);
      ArchivedAs(j, i, j.archived);
      assert r.sent[n] in r.sent && Split(r, r.sent[n], r.sent[n]);
    }
  }

  lemma ArchivedSlot(j: Journal, slots: map<nat, Slot>, i: nat, k: nat)
    requires ChatOwners(j) && SlotIs(j, SlotAt(slots, k), k)
    ensures SlotIs(Archive(j, i), SlotAt(slots[i := UNUSED], k), k)
  {
    hide Pieces, ChatOwners, Archive;
    ArchivePieces(j, i, Entry(k, "id"));
    ArchivePieces(j, i, Entry(k, "arguments"));
  }

  lemma ArchivedSpoken(j: Journal, slots: map<nat, Slot>, i: nat, s: Sent)
    requires ChatOwners(j) && Follows(j, slots) && Settled(SlotAt(slots, i)) && s in j.sent
    ensures SpokenAs(Archive(j, i), slots[i := UNUSED], RetagOne(s, i, j.archived))
  {
    hide Pieces, Latest, Archive;
    assert SpokenAs(j, slots, s);
    if Speaks(s) && s.owner.Entry? {
      assert Announced(s);
      SpokenSlot(j, slots, s);
      ArchivedAs(j, i, j.archived);
    } else if Speaks(s) && s.owner.Archived? {
      ArchivedAs(j, i, s.owner.place);
    }
  }

  // An entry with arguments was announced under some ID.
  lemma SpokenSlot(j: Journal, slots: map<nat, Slot>, s: Sent)
    requires ChatOwners(j) && Follows(j, slots) && s in j.sent && Speaks(s) && s.owner.Entry?
    ensures s.event.value.callId == SlotAt(slots, s.owner.index).spoken != ""
  {
    hide Pieces, Latest;
    assert Announced(s) && SpokenAs(j, slots, s);
    PieceExists(j.sent, s.owner);
    assert SlotIs(j, SlotAt(slots, s.owner.index), s.owner.index);
  }

  lemma Spoken(j: Journal, slots: map<nat, Slot>, i: nat) returns (s: Sent)
    requires ChatOwners(j) && Follows(j, slots) && SlotAt(slots, i).spoken != ""
    ensures s in j.sent && Speaks(s) && s.owner == Entry(i, "arguments")
    ensures s.event.value.callId == SlotAt(slots, i).spoken
  {
    hide Pieces, Latest;
    assert SlotIs(j, SlotAt(slots, i), i);
    PieceExists(j.sent, Entry(i, "arguments"));
    s :| s in j.sent && s.owner == Entry(i, "arguments");
    assert Announced(s) && SpokenAs(j, slots, s);
  }

  function SlotsAfter(slots: map<nat, Slot>, s: Sent): map<nat, Slot> {
    if !s.owner.Entry? then slots
    else
      var slot := SlotAt(slots, s.owner.index);
      slots[s.owner.index :=
        if s.owner.field == "id" then slot.(id := s.delta)
        else if s.owner.field == "arguments" then Slot(slot.id, slot.id)
        else slot]
  }

  // One fragment of an entry or a text.
  lemma LogFollows(j: Journal, slots: map<nat, Slot>, s: Sent)
    requires ChatOwners(j) && Follows(j, slots) && Announced(s) && (s.owner.Entry? || s.owner in {Text, Reasoning})
    requires Speaks(s) && s.owner.Entry? ==> s.event.value.callId == CurrentId(j, s.owner.index) != ""
    ensures if s.owner.Entry? && s.owner.field == "arguments" && !Settled(SlotAt(slots, s.owner.index))
      then Lost(Log(j, s)) else Follows(Log(j, s), SlotsAfter(slots, s))
  {
    hide Pieces, Latest;
    var k := Log(j, s);
    if s.owner.Entry? && s.owner.field == "arguments" && !Settled(SlotAt(slots, s.owner.index)) {
      var t := Spoken(j, slots, s.owner.index);
      assert SlotIs(j, SlotAt(slots, s.owner.index), s.owner.index);
      assert t in k.sent && s in k.sent && Split(k, t, s);
    } else {
      forall i: nat ensures SlotIs(k, SlotAt(SlotsAfter(slots, s), i), i) {
        assert SlotIs(j, SlotAt(slots, i), i);
        LogIs(j, s, Entry(i, "id"));
        LogIs(j, s, Entry(i, "arguments"));
      }
      forall t | t in k.sent ensures SpokenAs(k, SlotsAfter(slots, s), t) {
        LoggedSpoken(j, slots, s, t);
      }
    }
  }

  lemma LoggedSpoken(j: Journal, slots: map<nat, Slot>, s: Sent, t: Sent)
    requires ChatOwners(j) && Follows(j, slots) && Announced(s) && (s.owner.Entry? || s.owner in {Text, Reasoning})
    requires Speaks(s) && s.owner.Entry? ==> s.event.value.callId == CurrentId(j, s.owner.index) != ""
    requires s.owner.Entry? && s.owner.field == "arguments" ==> Settled(SlotAt(slots, s.owner.index))
    requires t in Log(j, s).sent
    ensures SpokenAs(Log(j, s), SlotsAfter(slots, s), t)
  {
    hide Pieces, Latest;
    if s.owner.Entry? {
      assert SlotIs(j, SlotAt(slots, s.owner.index), s.owner.index);
    }
    if Speaks(t) && t != s {
      assert t in j.sent && SpokenAs(j, slots, t);
      if t.owner.Entry? {
        SpokenSlot(j, slots, t);
      } else if t.owner.Archived? {
        LogIs(j, s, Archived(t.owner.place, "id"));
      }
    }
  }

  // ---- one call fragment

  lemma LostCall(j: Journal, call: Json)
    requires ChatOwners(j) && Lost(j) && CallJournal(j, call).Some?
    ensures Lost(CallJournal(j, call).value)
  {
    hide ChatOwners, Lost, Log, Archive, Latest;
    var i := U64(At(call, "index")).value;
    var id, name, arguments := At(call, "id"), At(At(call, "function"), "name"), At(At(call, "function"), "arguments");
    if Reused(id, CurrentId(j, i)) { LostArchives(j, i); }
    var a := if Reused(id, CurrentId(j, i)) then Archive(j, i) else j;
    LostLogs(a, Sent(Entry(i, "call"), "", None));
    var b := Log(a, Sent(Entry(i, "call"), "", None));
    if id.Str? { LostLogs(b, Sent(Entry(i, "id"), id.text, None)); }
    var c := if id.Str? then Log(b, Sent(Entry(i, "id"), id.text, None)) else b;
    if name.Str? { LostLogs(c, Sent(Entry(i, "name"), name.text, None)); }
    var d := if name.Str? then Log(c, Sent(Entry(i, "name"), name.text, None)) else c;
    if arguments.Str? {
      var event := ToolArgumentsDelta(CurrentId(d, i), arguments.text);
      LostLogs(d, Sent(Entry(i, "arguments"), arguments.text, Some(event)));
    }
  }

  // A silent fragment of a live entry.
  lemma SilentFollows(j: Journal, slots: map<nat, Slot>, i: nat, field: string, delta: string)
    requires ChatOwners(j) && Follows(j, slots) && field in {"call", "id", "name"} && (field == "call" || IsLive(j, i))
    ensures var s := Sent(Entry(i, field), delta, None);
      ChatOwners(Log(j, s)) && IsLive(Log(j, s), i) && Follows(Log(j, s), SlotsAfter(slots, s))
  {
    hide ChatOwners, Follows, Log, IsLive, SlotsAfter;
    EntryOwners(j, i, field, delta, None);
    LogFollows(j, slots, Sent(Entry(i, field), delta, None));
  }

  // The entry once its ID and its name are set.
  function Opened(j: Journal, i: nat, id: Json, name: Json): Journal {
    var b := Log(j, Sent(Entry(i, "call"), "", None));
    var c := if id.Str? then Log(b, Sent(Entry(i, "id"), id.text, None)) else b;
    if name.Str? then Log(c, Sent(Entry(i, "name"), name.text, None)) else c
  }

  lemma OpenedFollows(j: Journal, slots: map<nat, Slot>, i: nat, id: Json, name: Json)
    requires ChatOwners(j) && Follows(j, slots)
    ensures var d := Opened(j, i, id, name);
      ChatOwners(d) && IsLive(d, i) && Follows(d, slots[i := Given(SlotAt(slots, i), id)])
  {
    hide ChatOwners, Follows, Log, IsLive;
    SilentFollows(j, slots, i, "call", "");
    var b := Log(j, Sent(Entry(i, "call"), "", None));
    var slots1 := slots[i := SlotAt(slots, i)];
    if id.Str? { SilentFollows(b, slots1, i, "id", id.text); }
    var c := if id.Str? then Log(b, Sent(Entry(i, "id"), id.text, None)) else b;
    var slots2 := slots[i := Given(SlotAt(slots, i), id)];
    assert slots1[i := Given(SlotAt(slots, i), id)] == slots2;
    if name.Str? {
      SilentFollows(c, slots2, i, "name", name.text);
      assert slots2[i := SlotAt(slots2, i)] == slots2;
    }
  }

  // What a fragment says, where it takes no index over: the ID, a name, arguments.
  lemma PlainFollows(j: Journal, slots: map<nat, Slot>, call: Json)
    requires ChatOwners(j) && Follows(j, slots) && CallJournal(j, call).Some?
    requires !Reused(At(call, "id"), CurrentId(j, U64(At(call, "index")).value))
    ensures Outcome(CallJournal(j, call).value, Track(slots, call))
  {
    hide ChatOwners, Follows, Lost, Log, IsLive, CurrentId, SlotAt, Given;
    var i := U64(At(call, "index")).value;
    var id, name, arguments := At(call, "id"), At(At(call, "function"), "name"), At(At(call, "function"), "arguments");
    FollowsId(j, slots, i);
    OpenedFollows(j, slots, i, id, name);
    var d, given := Opened(j, i, id, name), Given(SlotAt(slots, i), id);
    var now := slots[i := given];
    FollowsId(d, now, i);
    SlotPut(slots, i, given);
    PlainCall(j, call);
    PlainTrack(slots, call);
    if arguments.Str? {
      var s := Sent(Entry(i, "arguments"), arguments.text, Some(ToolArgumentsDelta(CurrentId(d, i), arguments.text)));
      EntryOwners(d, i, "arguments", arguments.text, s.event);
      LogFollows(d, now, s);
      assert now[i := Slot(given.id, given.id)] == slots[i := Slot(given.id, given.id)];
    }
  }

  lemma SlotPut(slots: map<nat, Slot>, i: nat, slot: Slot)
    ensures SlotAt(slots[i := slot], i) == slot
  {}

  lemma PlainCall(j: Journal, call: Json)
    requires CallJournal(j, call).Some?
    requires !Reused(At(call, "id"), CurrentId(j, U64(At(call, "index")).value))
    ensures var i := U64(At(call, "index")).value;
      var arguments := At(At(call, "function"), "arguments");
      var d := Opened(j, i, At(call, "id"), At(At(call, "function"), "name"));
      CallJournal(j, call).value ==
        if !arguments.Str? then d
        else Log(d, Sent(Entry(i, "arguments"), arguments.text,
          Some(ToolArgumentsDelta(CurrentId(d, i), arguments.text))))
    ensures var d := Opened(j, U64(At(call, "index")).value, At(call, "id"), At(At(call, "function"), "name"));
      At(At(call, "function"), "arguments").Str? ==> CurrentId(d, U64(At(call, "index")).value) != ""
  {
    hide Log, CurrentId;
  }

  lemma PlainTrack(slots: map<nat, Slot>, call: Json)
    requires U64(At(call, "index")).Some?
    requires !Reused(At(call, "id"), SlotAt(slots, U64(At(call, "index")).value).id)
    ensures var i := U64(At(call, "index")).value;
      var given := Given(SlotAt(slots, i), At(call, "id"));
      Track(slots, call) ==
        if !At(At(call, "function"), "arguments").Str? then Some(slots[i := given])
        else if !Settled(given) then None
        else Some(slots[i := Slot(given.id, given.id)])
  {}

  lemma FollowsId(j: Journal, slots: map<nat, Slot>, i: nat)
    requires Follows(j, slots)
    ensures SlotAt(slots, i).id == CurrentId(j, i)
  {
    assert SlotIs(j, SlotAt(slots, i), i);
  }

  lemma CallFollows(j: Journal, slots: map<nat, Slot>, call: Json)
    requires ChatOwners(j) && Follows(j, slots) && CallJournal(j, call).Some?
    ensures Outcome(CallJournal(j, call).value, Track(slots, call))
  {
    hide ChatOwners, Follows, Lost, Archive, CurrentId;
    var i := U64(At(call, "index")).value;
    var id := At(call, "id");
    FollowsId(j, slots, i);
    if Reused(id, CurrentId(j, i)) {
      var r := Archive(j, i);
      ArchiveOwners(j, i);
      ArchiveFollows(j, slots, i);
      ArchivedId(j, i);
      assert CallJournal(j, call) == CallJournal(r, call);
      if Settled(SlotAt(slots, i)) {
        PlainFollows(r, slots[i := UNUSED], call);
        TrackTaken(slots, call);
      } else {
        CallOwners(r, call);
        LostCall(r, call);
      }
    } else {
      PlainFollows(j, slots, call);
    }
  }

  lemma TrackTaken(slots: map<nat, Slot>, call: Json)
    requires U64(At(call, "index")).Some?
    requires var slot := SlotAt(slots, U64(At(call, "index")).value); Reused(At(call, "id"), slot.id) && Settled(slot)
    ensures Track(slots[U64(At(call, "index")).value := UNUSED], call) == Track(slots, call)
  {
    var i := U64(At(call, "index")).value;
    var given := Given(UNUSED, At(call, "id"));
    assert slots[i := UNUSED][i := given] == slots[i := given];
    assert slots[i := UNUSED][i := Slot(given.id, given.id)] == slots[i := Slot(given.id, given.id)];
  }

  // ---- whole streams

  lemma {:induction false} CallsFollow(j: Journal, slots: map<nat, Slot>, calls: seq<Json>)
    requires ChatOwners(j) && Follows(j, slots) && CallsJournal(j, calls).Some?
    ensures Outcome(CallsJournal(j, calls).value, TrackAll(slots, calls))
  {
    hide ChatOwners, Follows, Lost, Track, CallJournal;
    if calls != [] {
      var before, call := calls[..|calls| - 1], calls[|calls| - 1];
      CallsFollow(j, slots, before);
      var k := CallsJournal(j, before).value;
      CallOwners(k, call);
      match TrackAll(slots, before)
      case None => LostCall(k, call);
      case Some(now) => CallFollows(k, now, call);
    }
  }

  lemma {:induction false} LostCalls(j: Journal, calls: seq<Json>)
    requires ChatOwners(j) && Lost(j) && CallsJournal(j, calls).Some?
    ensures Lost(CallsJournal(j, calls).value) && ChatOwners(CallsJournal(j, calls).value)
  {
    hide ChatOwners, Lost, CallJournal;
    if calls != [] {
      LostCalls(j, calls[..|calls| - 1]);
      var k := CallsJournal(j, calls[..|calls| - 1]).value;
      CallOwners(k, calls[|calls| - 1]);
      LostCall(k, calls[|calls| - 1]);
    }
  }

  lemma TextOutcome(j: Journal, slots: Option<map<nat, Slot>>, s: Sent)
    requires Outcome(j, slots) && Announced(s) && s.owner in {Text, Reasoning}
    ensures Outcome(Log(j, s), slots)
  {
    hide ChatOwners, Follows, Lost, Log;
    OwnersLogged(j, s);
    match slots
    case None => LostLogs(j, s);
    case Some(now) => assert !Speaks(s); LogFollows(j, now, s);
  }

  lemma TextsOutcome(j: Journal, slots: Option<map<nat, Slot>>, delta: Json, codec: Codec)
    requires Outcome(j, slots)
    ensures Outcome(TextsJournal(j, delta, codec), slots)
  {
    hide Outcome, Log, ReasoningIn, Joined;
    var thoughts, content := ReasoningIn(delta, codec), StrOr(At(delta, "content"));
    var a := LogReasoning(j, thoughts);
    if thoughts != "" { TextOutcome(j, slots, Sent(Reasoning, thoughts, Some(ReasoningDelta(thoughts)))); }
    var b := LogText(a, content);
    if content != "" { TextOutcome(a, slots, Sent(Text, content, Some(TextDelta(content)))); }
    var refusal := Introduced(StrOr(At(delta, "refusal")), Joined(b, Text));
    if refusal != "" { TextOutcome(b, slots, Sent(Text, refusal, Some(TextDelta(refusal)))); }
  }

  function TrackFrom(slots: Option<map<nat, Slot>>, calls: seq<Json>): Option<map<nat, Slot>> {
    match slots case None => None case Some(now) => TrackAll(now, calls)
  }

  lemma ChoiceOutcome(c: ChatRun, choice: Json, slots: Option<map<nat, Slot>>, codec: Codec)
    requires Outcome(c.journal, slots) && ChoiceRun(c, choice, codec).Some?
    ensures Outcome(ChoiceRun(c, choice, codec).value.journal, TrackFrom(slots, CallsOf(choice)))
  {
    hide ChatOwners, Follows, Lost, TextsJournal, CallsJournal, TrackAll;
    var j := BeforeCalls(c, choice, codec);
    TextsOutcome(c.journal, slots, At(choice, "delta"), codec);
    match slots
    case None => LostCalls(j, CallsOf(choice));
    case Some(now) => CallsFollow(j, now, CallsOf(choice));
  }

  lemma {:induction false} ChoicesOutcome(c: ChatRun, choices: seq<Json>, slots: Option<map<nat, Slot>>, codec: Codec)
    requires Outcome(c.journal, slots) && ChoicesRun(c, choices, codec).Some?
    ensures Outcome(ChoicesRun(c, choices, codec).value.journal, TrackFrom(slots, FragmentsIn(choices)))
  {
    hide Outcome, ChoiceRun, CallsOf;
    if choices != [] {
      var before, last := choices[..|choices| - 1], choices[|choices| - 1];
      ChoicesOutcome(c, before, slots, codec);
      ChoiceOutcome(ChoicesRun(c, before, codec).value, last, TrackFrom(slots, FragmentsIn(before)), codec);
      if slots.Some? { TrackMore(slots.value, FragmentsIn(before), CallsOf(last)); }
    }
  }

  lemma {:induction false} StreamOutcome(events: seq<Json>, codec: Codec)
    requires ChatFold(events, codec).Some?
    ensures Outcome(ChatFold(events, codec).value.journal, TrackAll(map[], CallFragments(events)))
  {
    hide Outcome, ChoicesRun, HeadersOf, FragmentsIn;
    if events == [] {
      NothingTracked();
    } else {
      var before, last := events[..|events| - 1], events[|events| - 1];
      StreamOutcome(before, codec);
      var c, choices := ChatFold(before, codec).value, ItemsOr(At(last, "choices"));
      ChoicesOutcome(Headed(c, last), choices, TrackAll(map[], CallFragments(before)), codec);
      TrackMore(map[], CallFragments(before), FragmentsIn(choices));
    }
  }

  lemma NothingTracked()
    ensures Outcome(NEW, Some(map[]))
  {}

  lemma SettledNames(j: Journal, slots: map<nat, Slot>)
    requires ChatOwners(j) && Follows(j, slots)
    ensures NamesItsCall(j) <==> forall i :: i in slots ==> Settled(slots[i])
  {
    hide Pieces, Latest;
    assert forall i: nat :: SlotIs(j, SlotAt(slots, i), i);
    if forall i :: i in slots ==> Settled(slots[i]) {
      forall s | s in j.sent && Speaks(s)
        ensures s.owner.Entry? ==> s.event.value.callId == CurrentId(j, s.owner.index) != ""
        ensures s.owner.Archived? ==> s.event.value.callId == Latest(j, Archived(s.owner.place, "id"))
      {
        assert SpokenAs(j, slots, s);
        if s.owner.Entry? { SpokenSlot(j, slots, s); }
      }
    } else {
      var i :| i in slots && !Settled(slots[i]);
      var s := Spoken(j, slots, i);
    }
  }

  // A stream ends with every argument delta announced under the ID its call ends up with if and only if
  // no fragment splits a call and every call is left under the ID its arguments came under.
  lemma ChatEndsNamed(events: seq<Json>, codec: Codec)
    requires ChatFold(events, codec).Some?
    ensures NamesItsCall(ChatFold(events, codec).value.journal) <==> KeepsCalls(CallFragments(events))
  {
    hide ChatOwners, Follows, Lost, NamesItsCall, ChatFold, CallFragments;
    StreamOutcome(events, codec);
    var j := ChatFold(events, codec).value.journal;
    match TrackAll(map[], CallFragments(events))
    case None => LostIsMisnamed(j);
    case Some(slots) => SettledNames(j, slots);
  }

  // Only a reset can split a call: a stream without one keeps its calls.
  lemma NoResetKeeps(events: seq<Json>, codec: Codec)
    requires ChatFold(events, codec).Some? && StreamNeverResets(events, codec)
    ensures KeepsCalls(CallFragments(events))
  {
    hide ChatFold, NamesItsCall, KeepsCalls, CallFragments, ChatOwners, StreamNeverResets, StreamNamesCalls;
    ChatNames(events, codec);
    ChatEndsNamed(events, codec);
  }

  // A reset that the next fragment takes back: in between "x" has no call, at the end it has its own.
  lemma RecoveredReset(codec: Codec)
    requires codec.detailsText(Null) == ""
    ensures var events := [ChunkOf(CallOf("a", "x")), ChunkOf(RESET), ChunkOf(CallOf("a", "y"))];
      var run := ChatFold(events, codec);
      run.Some?
      && EntryOf(run.value.journal, 0) == ToolJson("a", "", "xy")
      && Emitted(run.value.journal.sent) == [ToolArgumentsDelta("a", "x"), ToolArgumentsDelta("a", "y")]
      && !StreamNeverResets(events, codec)
      && NamesItsCall(run.value.journal) && KeepsCalls(CallFragments(events))
  {
    var a, b := CallOf("a", "x"), CallOf("a", "y");
    var events := [ChunkOf(a), ChunkOf(RESET), ChunkOf(b)];
    NothingLogged();
    hide CallOf, Pieces, Joined, Latest, Emitted, ChatFold, ChatStep, CallJournal, ToolJson, CurrentId, ChunkOf,
      NamesItsCall, KeepsCalls, CallFragments, ChatOwners, StreamNeverResets, StreamNamesCalls;
    var first := NextArguments(NEW, "a", "x");
    var reset := NextReset(first);
    var last := NextArguments(reset, "a", "y");
    FoldOneMore([], ChunkOf(a), codec);
    ChunkCalls(ChatRun(EMPTY, NEW, None), a, codec);
    FoldOneMore([ChunkOf(a)], ChunkOf(RESET), codec);
    ChunkCalls(ChatRun(EMPTY, first, None), RESET, codec);
    FoldOneMore([ChunkOf(a), ChunkOf(RESET)], ChunkOf(b), codec);
    ChunkCalls(ChatRun(EMPTY, reset, None), b, codec);
    assert [] + [ChunkOf(a)] == [ChunkOf(a)] && [ChunkOf(a)] + [ChunkOf(RESET)] == [ChunkOf(a), ChunkOf(RESET)];
    assert [ChunkOf(a), ChunkOf(RESET)] + [ChunkOf(b)] == events;
    assert "" + "x" + "y" == "xy";
    EntryByParts(last);
    ChatEndsNamed(events, codec);
    RecoveredKeeps();
    ChatNames(events, codec);
    ChatNames(events[..2], codec);
    assert events[..2] == [ChunkOf(a), ChunkOf(RESET)];
    ResetMisnames(reset);
    if StreamNamesCalls(events, codec) { NamedBefore(events, codec); }
  }

  lemma NamedBefore(events: seq<Json>, codec: Codec)
    requires events != [] && ChatFold(events, codec).Some? && StreamNamesCalls(events, codec)
    ensures ChatFold(events[..|events| - 1], codec).Some? && StreamNamesCalls(events[..|events| - 1], codec)
  {}

  lemma ResetMisnames(j: Journal)
    requires ChatOwners(j) && CurrentId(j, 0) == "" && Joined(j, Entry(0, "arguments")) != ""
    ensures !NamesItsCall(j)
  {
    EmptyIdMisnames(j, 0);
  }

  lemma RecoveredKeeps()
    ensures KeepsCalls(CallFragments([ChunkOf(CallOf("a", "x")), ChunkOf(RESET), ChunkOf(CallOf("a", "y"))]))
  {
    var a, b := CallOf("a", "x"), CallOf("a", "y");
    FragmentsOne(a);
    FragmentsOne(RESET);
    FragmentsOne(b);
    hide CallOf, ChunkOf, FragmentsIn, Track;
    FragmentsMore([], ChunkOf(a));
    FragmentsMore([ChunkOf(a)], ChunkOf(RESET));
    FragmentsMore([ChunkOf(a), ChunkOf(RESET)], ChunkOf(b));
    assert [] + [ChunkOf(a)] == [ChunkOf(a)] && [ChunkOf(a)] + [ChunkOf(RESET)] == [ChunkOf(a), ChunkOf(RESET)];
    assert [ChunkOf(a), ChunkOf(RESET)] + [ChunkOf(b)] == [ChunkOf(a), ChunkOf(RESET), ChunkOf(b)];
    assert [] + [a] + [RESET] + [b] == [a, RESET, b];
    assert [a, RESET, b][..2][..1] == [a] && [a, RESET, b][..2] == [a, RESET] && [a][..0] == [];
    RecoveredTracks();
    assert TrackAll(map[], []) == Some(map[]);
    assert TrackAll(map[], [a]) == Track(map[], a);
    assert TrackAll(map[], [a, RESET]) == Some(map[0 := Slot("", "a")]);
    assert TrackAll(map[], [a, RESET, b]) == Some(map[0 := Slot("a", "a")]);
  }

  lemma FragmentsMore(events: seq<Json>, event: Json)
    ensures CallFragments([]) == []
    ensures CallFragments(events + [event]) == CallFragments(events) + FragmentsIn(ItemsOr(At(event, "choices")))
  {
    hide FragmentsIn;
    assert (events + [event])[..|events|] == events;
  }

  lemma RecoveredTracks()
    ensures Track(map[], CallOf("a", "x")) == Some(map[0 := Slot("a", "a")])
    ensures Track(map[0 := Slot("a", "a")], RESET) == Some(map[0 := Slot("", "a")])
    ensures Track(map[0 := Slot("", "a")], CallOf("a", "y")) == Some(map[0 := Slot("a", "a")])
  {
    CallFields("a", "x");
    CallFields("a", "y");
    hide CallOf;
    assert map[0 := Slot("a", "a")][0 := Slot("", "a")] == map[0 := Slot("", "a")];
    assert map[0 := Slot("", "a")][0 := Slot("a", "a")] == map[0 := Slot("a", "a")];
  }

  lemma FragmentsOne(call: Json)
    ensures FragmentsIn(ItemsOr(At(ChunkOf(call), "choices"))) == [call]
  {
    BareDelta(call);
    assert ItemsOr(At(ChunkOf(call), "choices")) == [BareChoice(call)];
    hide BareChoice;
    assert FragmentsIn([BareChoice(call)]) == [] + CallsOf(BareChoice(call));
  }
}
