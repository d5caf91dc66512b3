/** The event stream handed to callers (client.rs): queued deltas, one completion, then nothing. */
module HttpStreams {
  import opened Wrappers
  import opened Jsons
  import opened OrderedMaps
  import opened StreamJournals
  import opened StreamBlocks
  import opened StreamParts
  import opened StreamNames
  import opened StreamStates
  import opened StreamCalls
  import opened ToolInputs

  // What the response delivers next: a chunk and the events the decoder finds in it, or a failure.
  datatype Arrival = Chunk(events: seq<string>) | Undecodable | Broken

  // A completion, if any, is the last event.
  ghost predicate CompleteIsLast(events: seq<ModelEvent>) {
    forall i :: 0 <= i < |events| - 1 ==> !events[i].Complete?
  }

  ghost predicate Deltas(events: seq<ModelEvent>) {
    forall e <- events :: e.TextDelta? || e.ReasoningDelta? || e.ToolArgumentsDelta?
  }

  lemma {:induction false} EmittedAreDeltas(sent: seq<Sent>)
    requires AllAnnounced(sent)
    ensures Deltas(Emitted(sent))
  {
    if sent != [] {
      assert sent[|sent| - 1] in sent && forall s <- sent[..|sent| - 1] :: s in sent;
      EmittedAreDeltas(sent[..|sent| - 1]);
    }
  }

  lemma DeltasOnly(events: seq<ModelEvent>)
    requires Deltas(events)
    ensures CompleteIsLast(events) && (events != [] ==> !events[|events| - 1].Complete?)
  {
    forall i | 0 <= i < |events| ensures !events[i].Complete? { assert events[i] in events; }
  }

  lemma StateAnnounced(state: StreamState)
    requires state.Valid()
    ensures AllAnnounced(state.journal.sent)
  {}

  lemma FinaleLast(deltas: seq<ModelEvent>, response: Response)
    requires Deltas(deltas)
    ensures CompleteIsLast(deltas + Finale(response)) && CompleteIsLast(deltas)
    ensures Finale(response) != [] && Finale(response)[|Finale(response)| - 1] == Complete(response)
  {
    var all := deltas + Finale(response);
    forall i | 0 <= i < |all| - 1 ensures !all[i].Complete? {
      if i < |deltas| { assert deltas[i] in deltas; }
    }
    forall i | 0 <= i < |deltas| ensures !deltas[i].Complete? { assert deltas[i] in deltas; }
  }

  class HttpStream {
    const state: StreamState
    const active: nat -> bool   // the answers of the context's activity checks
    var polls: nat
    var arrivals: seq<Arrival>
    var queue: seq<ModelEvent>
    var closed: bool
    ghost var yielded: seq<ModelEvent>    // what callers have received
    ghost var promised: seq<ModelEvent>   // what they receive if nothing fails

    ghost predicate Valid()
      reads this, state
    {
      && yielded <= promised && CompleteIsLast(promised)
      && if closed then queue == [] else Open()
    }

    ghost predicate Open()
      reads this, state
    {
      && state.Valid() && state.Followed() && promised == yielded + queue && promised == AllOf(state)
      && (!state.complete ==> Deltas(promised))
    }

    constructor (protocol: Protocol, codec: Codec, active: nat -> bool, arrivals: seq<Arrival>)
      ensures Valid() && !closed && yielded == [] && fresh(state)
    {
      state := new StreamState(protocol, codec);
      this.active, this.arrivals := active, arrivals;
      polls, queue, closed, yielded, promised := 0, [], false, [], [];
    }

    // Once the completion is out, the queue is empty.
    lemma CompletedQueue()
      requires Open() && yielded <= promised && CompleteIsLast(promised)
      ensures |yielded| > 0 && yielded[|yielded| - 1].Complete? ==> queue == [] && state.complete
    {
      hide AllOf;
      if |yielded| > 0 && yielded[|yielded| - 1].Complete? {
        assert promised[|yielded| - 1] == yielded[|yielded| - 1];
        assert promised[|yielded| - 1] in promised;
      }
    }

    // The next event, or none at the end of a completed stream.
    method Read() returns (r: Result<Option<ModelEvent>, Error>)
      requires Valid() && !closed
      modifies this, state
      ensures r.Ok? ==> Valid()
      ensures yielded <= promised && CompleteIsLast(promised)
      ensures yielded == old(yielded) + (if r.Ok? && r.value.Some? then [r.value.value] else [])
      ensures r == Ok(None) ==> closed && state.Valid() && state.Followed() && state.complete && yielded == AllOf(state)
      ensures r.Ok? && r.value.Some? ==> !closed
      ensures old(|yielded| > 0 && yielded[|yielded| - 1].Complete?) ==> r.Err? || r.value.None?
      ensures AtOnce(old(active(polls)), old(queue), old(state.complete), old(arrivals), r)
    {
      hide AllOf, Deltas, CompleteIsLast, StreamState.Valid, StreamState.Followed;
      CompletedQueue();
      while true
        invariant arrivals == old(arrivals) ==> polls == old(polls) && queue == old(queue)
        invariant arrivals == old(arrivals) ==> state.complete == old(state.complete)
        invariant arrivals != old(arrivals) ==>
          && old(active(polls)) && old(queue) == [] && !old(state.complete)
          && old(arrivals) != [] && old(arrivals)[0].Chunk?
        invariant |arrivals| <= |old(arrivals)|
        invariant !closed && yielded == old(yielded) && yielded <= promised && CompleteIsLast(promised) && Open()
        invariant old(|yielded| > 0 && yielded[|yielded| - 1].Complete?) ==> queue == [] && state.complete
        decreases |arrivals|
      {
        polls := polls + 1;
        if !active(polls - 1) {
          return Err(ProviderError);
        }
        if queue != [] {
          var event := queue[0];
          queue, yielded := queue[1..], yielded + [event];
          return Ok(Some(event));
        }
        if state.complete {
          closed := true;
          return Ok(None);
        }
        if arrivals == [] {
          return Err(ProtocolError);
        }
        var arrival := arrivals[0];
        arrivals := arrivals[1..];
        if !arrival.Chunk? {
          return Err(ProtocolError);
        }
        var ok := Feed(arrival.events);
        if !ok {
          return Err(ProtocolError);
        }
      }
    }

    // All events of one chunk; an error loses what the chunk added before it.
    method Feed(datas: seq<string>) returns (ok: bool)
      requires Open() && yielded <= promised && CompleteIsLast(promised)
      modifies this`queue, this`promised, state
      ensures ok ==> Open()
      ensures yielded <= promised && CompleteIsLast(promised)
      ensures datas == [] ==> ok && queue == old(queue)
      ensures datas != [] && !old(state.Takes(datas[0])) ==> !ok
      ensures |datas| == 1 && old(state.Takes(datas[0])) ==> ok
    {
      hide AllOf, CompleteIsLast, Deltas, StreamState.Valid, StreamState.Followed, StreamState.Takes;
      var n := 0;
      while n < |datas|
        invariant 0 <= n <= |datas| && (n == 0 ==> queue == old(queue) && unchanged(state))
        invariant n > 0 ==> old(state.Takes(datas[0]))
        invariant Open() && yielded <= promised && CompleteIsLast(promised)
      {
        var events := Take(datas[n]);
        if events.Err? {
          return false;
        }
        n := n + 1;
        queue := queue + events.value;
        promised := promised + events.value;
      }
      return true;
    }

    method Take(data: string) returns (r: Result<seq<ModelEvent>, Error>)
      requires state.Valid() && state.Followed() && promised == AllOf(state) && CompleteIsLast(promised)
      requires !state.complete ==> Deltas(promised)
      modifies state
      ensures r.Ok? <==> old(state.Takes(data))
      ensures r.Ok? ==>
        state.Valid() && state.Followed() && promised + r.value == AllOf(state) && CompleteIsLast(promised + r.value)
      ensures r.Ok? && !state.complete ==> Deltas(promised + r.value)
    {
      hide Finale, CompleteIsLast, Deltas, Emitted, StreamState.Valid, StreamState.Followed, StreamState.Advanced,
        StreamState.Concluded, StreamState.Ends, StreamState.Takes;
      ghost var was := Emitted(state.journal.sent);
      ghost var complete := state.complete;
      assert !complete ==> promised == was + [] == was;
      r := state.Event(data);
      if r.Ok? {
        if complete {
          assert promised + r.value == promised;
        } else if state.complete {
          assert promised == was by { assert was + [] == was; }
          FinaleLast(was, state.codec.response(state.body, state.protocol).value);
          assert was + [] == was;
        } else {
          StateAnnounced(state);
          EmittedAreDeltas(state.journal.sent);
          DeltasOnly(Emitted(state.journal.sent));
          assert was + [] == was && was + r.value + [] == was + r.value;
        }
      }
    }

    // After an error or the end every later call returns nothing.
    method Next() returns (r: Result<Option<ModelEvent>, Error>)
      requires Valid()
      modifies this, state
      ensures Valid() && CompleteIsLast(yielded)
      ensures old(closed) ==> r == Ok(None) && closed && yielded == old(yielded)
      ensures yielded == old(yielded) + (if r.Ok? && r.value.Some? then [r.value.value] else [])
      ensures r.Err? || r.value.None? ==> closed
      ensures r == Ok(None) && !old(closed) ==>
        state.Valid() && state.Followed() && state.complete && yielded == AllOf(state)
      ensures old(|yielded| > 0 && yielded[|yielded| - 1].Complete?) ==> r.Err? || r.value.None?
      ensures !old(closed) ==> AtOnce(old(active(polls)), old(queue), old(state.complete), old(arrivals), r)
    {
      hide AllOf, Deltas, StreamState.Valid, StreamState.Followed;
      if closed {
        return Ok(None);
      }
      r := Read();
      if r.Err? {
        closed, queue := true, [];
      }
    }
  }

  // What a read answers without waiting for more of the response: an error once the context is not active,
  // the next queued event, the end, or an error where the response breaks off.
  predicate AtOnce(
    active: bool, queue: seq<ModelEvent>, complete: bool, arrivals: seq<Arrival>,
    r: Result<Option<ModelEvent>, Error>)
  {
    if !active then r == Err(ProviderError)
    else if queue != [] then r == Ok(Some(queue[0]))
    else if complete then r == Ok(None)
    else arrivals == [] || !arrivals[0].Chunk? ==> r == Err(ProtocolError)
  }

  // Everything a stream has to say: its deltas, and once complete the items and the completion.
  ghost function AllOf(state: StreamState): seq<ModelEvent>
    reads state
  {
    Emitted(state.journal.sent)
    + if state.complete && state.codec.response(state.body, state.protocol).Some?
      then Finale(state.codec.response(state.body, state.protocol).value)
      else []
  }

  // ---- what a completed stream handed over

  function ChatMessage(body: Json): Json {
    var choices := ItemsOr(At(body, "choices"));
    if choices == [] then Null else At(choices[0], "message")
  }

  lemma ChatMessageIs(
    body: Json, text: string, reasoning: string, tools: map<nat, Json>, archived: seq<Json>, reason: Option<string>)
    ensures var message := ChatMessage(ChatFinal(body, text, reasoning, tools, archived, reason));
      && At(message, "content") == Str(text) && At(message, "reasoning_content") == Str(reasoning)
      && At(message, "tool_calls") == Array(archived + Values(tools))
  {}

  // The content and the reasoning of a chat response are the announced deltas, and its tool calls are
  // the archived and the live entries with all their fragments.
  lemma ChatBodyIsDeltas(state: StreamState)
    requires state.Valid() && state.complete && state.protocol == Chat
    ensures At(ChatMessage(state.body), "content") == Str(TextOf(Emitted(state.journal.sent)))
    ensures At(ChatMessage(state.body), "reasoning_content") == Str(ReasoningOf(Emitted(state.journal.sent)))
    ensures At(ChatMessage(state.body), "tool_calls") == Array(state.archivedTools + Values(state.tools))
    ensures forall i :: i in state.tools ==> state.tools[i] == EntryOf(state.journal, i)
    ensures forall k :: 0 <= k < |state.archivedTools| ==> state.archivedTools[k] == ArchivedOf(state.journal, k)
  {
    hide Pieces, Joined, Latest, Announced, EntryOf, ArchivedOf, Emitted, TextOf, ReasoningOf, IsLive, With;
    ChatDeltasReassemble(state.journal);
    ChatMessageIs(state.last, state.text, state.reasoning, state.tools, state.archivedTools, state.finishReason);
    hide ChatFinal, ChatMessage;
  }

  // Every block of an Anthropic message is its start with all its fragments, and the input of a block
  // with argument fragments is what all of them parse to.
  lemma MessageBodyIsDeltas(state: StreamState, i: nat, f: string)
    requires state.Valid() && state.complete && state.protocol == Anthropic && i in state.tools
    ensures At(state.body, "content") == Array(Values(state.tools))
    ensures i in state.starts && At(state.tools[i], f) == FieldOf(state.MessageView(), i, f, state.codec)
    ensures HasInput(state.MessageView(), i) ==>
      state.codec.parse(Join(FieldPieces(state.MessageView(), i, "input"))) == Some(At(state.tools[i], "input"))
  {
    hide FieldPieces, Join, BlockOwners;
    var m := state.MessageView();
    assert IsBlock(m, i, state.tools[i], state.codec);
    if HasInput(m, i) {
      assert Finishable(m.(body := state.last));
      SamePieces(m, state.last, i);
      BodyKeeps(m, state.last, state.tools, state.argumentBuffers, state.codec);
      FinishedInputs(m.(body := state.last), state.tools, state.argumentBuffers, state.codec, i);
    }
  }

  lemma SamePieces(m: Message, body: Json, i: nat)
    ensures FieldPieces(m.(body := body), i, "input") == FieldPieces(m, i, "input")
  {}

  // Every fragment held for a Responses stream is what was announced for its key.
  lemma ResponseFragmentsAreDeltas(state: StreamState, key: Key)
    requires state.Valid() && state.protocol == Responses
    ensures key in state.responseFragments <==> Pieces(state.journal.sent, Part(key)) != []
    ensures key in state.responseFragments ==> state.responseFragments[key] == Joined(state.journal, Part(key))
    ensures state.complete ==>
      state.body == CompletedBody(state.last, state.terminal, Completed(state.lastItems, state.responseFragments))
  {
    hide Joined, Pieces, CompletedBody, Completed, Announced;
    assert Begun(state.PartsView(), key) <==> Pieces(state.journal.sent, Part(key)) != [];
  }

  // ---- the events received, as a whole

  // The fragments of a Responses stream are the batch reading of all events received: a text is never
  // counted both as deltas and again when it is closed.
  lemma ResponseFragmentsAreTexts(state: StreamState, key: Key)
    requires state.Valid() && state.Followed() && state.protocol == Responses
    ensures Pieces(state.journal.sent, Part(key)) == TextsFor(state.received, key)
    ensures key in state.responseFragments <==> TextsFor(state.received, key) != []
    ensures key in state.responseFragments ==> state.responseFragments[key] == Join(TextsFor(state.received, key))
  {
    hide Pieces, Join, TextsFor, PartsRun, Announced;
    FragmentsAreTexts(NO_PARTS, state.received, key);
    ResponseFragmentsAreDeltas(state, key);
  }

  // In a chat stream that splits no call, the argument deltas a caller received for the ID of a tool
  // call are, together, the arguments of that call in the response, if no other call has the ID.
  lemma ToolArgumentsAreDeltas(state: StreamState, o: Owner)
    requires state.Valid() && state.Followed() && state.protocol == Chat
    requires KeepsCalls(CallFragments(state.received))
    requires o in ToolCalls(state.tools, state.archivedTools)
    requires forall x <- ToolCalls(state.tools, state.archivedTools) :: x != o ==>
      IdOf(ToolAt(state.tools, state.archivedTools, x)) != IdOf(ToolAt(state.tools, state.archivedTools, o))
    ensures var tool := ToolAt(state.tools, state.archivedTools, o);
      ArgumentsOf(tool) == ArgumentsFor(Emitted(state.journal.sent), IdOf(tool))
  {
    hide ChatFold, NamesItsCall, ChatMatches, ToolAt, ArgumentsFor, Emitted, KeepsCalls, CallFragments;
    ChatEndsNamed(state.received, state.codec);
    CallArguments(state.journal, state.text, state.reasoning, state.tools, state.archivedTools, o);
  }

  // The input of a block in a completed message is what the argument deltas a caller received for the
  // block's ID parse to, together, if no other block with input has the ID.
  lemma BlockInputsAreDeltas(state: StreamState, i: nat)
    requires state.Valid() && state.Followed() && state.complete && state.protocol == Anthropic
    requires i in state.tools && HasInput(state.MessageView(), i)
    requires forall k <- state.tools :: k != i && HasInput(state.MessageView(), k) ==>
      At(state.tools[k], "id") != At(state.tools[i], "id")
    ensures At(state.tools[i], "id").Str?
    ensures state.codec.parse(ArgumentsFor(Emitted(state.journal.sent), At(state.tools[i], "id").text)) ==
      Some(At(state.tools[i], "input"))
  {
    hide FieldPieces, Join, BlockOwners, HasInput, MessageFold, NamesBlocks, IsBlock, Emitted, ArgumentsFor;
    var m := state.MessageView();
    var n := m.(body := state.last);
    MessageBodyIsDeltas(state, i, "input");
    BlocksName(state.received, state.codec);
    SameBody(m, state.last);
    forall k <- state.tools ensures At(m.starts[k], "id") == At(state.tools[k], "id") {
      BlockId(m, k, state.tools[k], state.codec);
    }
    BlockInputs(m, i);
  }

  lemma SameBody(m: Message, body: Json)
    ensures NamesBlocks(m.(body := body)) <==> NamesBlocks(m)
  {
    forall s ensures NamesItsBlock(m.(body := body), s) <==> NamesItsBlock(m, s) {}
  }

  lemma BlockId(m: Message, i: nat, block: Json, codec: Codec)
    requires BlockOwners(m) && i in m.starts && IsBlock(m, i, block, codec)
    ensures At(block, "id") == At(m.starts[i], "id")
  {
    OwnPieces(m, i, "id");
    assert At(block, "id") == FieldOf(m, i, "id", codec);
  }

  // The argument deltas of a Responses stream are those its events stand for, each under the call ID
  // last given to the item it names. Where a key's arguments are those of one call, they are what a
  // caller received for that call, and so are the arguments of a completed item that had none.
  lemma ResponseArgumentsAreDeltas(state: StreamState, key: Key, id: string)
    requires state.Valid() && state.Followed() && state.protocol == Responses
    ensures ToolDeltas(Emitted(state.journal.sent)) == CallDeltas(state.received)
    ensures OneCall(state.received, key, id) && key in state.responseFragments ==>
      state.responseFragments[key] == ArgumentsFor(Emitted(state.journal.sent), id)
    ensures
      OneCall(state.received, key, id) && state.complete
      && FillsItem(state.lastItems, state.responseFragments, key) ==>
      key.index in state.responseItems
      && StrOr(At(state.responseItems[key.index], "arguments")) == ArgumentsFor(Emitted(state.journal.sent), id)
  {
    hide Pieces, Join, TextsFor, PartsRun, Announced, Emitted, ArgumentsFor, ToolDeltas, CallDeltas, OneCall, Completed;
    DeltasNameItems(state.received);
    ToolDeltasFor(Emitted(state.journal.sent), id);
    ResponseFragmentsAreTexts(state, key);
    if OneCall(state.received, key, id) && key in state.responseFragments {
      KeyIsCall(state.received, key, id);
      if state.complete && FillsItem(state.lastItems, state.responseFragments, key) {
        CompletedArguments(state.lastItems, state.responseFragments, key);
      }
    }
  }
}
