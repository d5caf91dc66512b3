/**
 Native run items and approval markers against the wire history they are merged into (approval.rs).
 Both directions round-trip.
 */
module ApprovalHistory {
  import opened Wrappers
  import opened Jsons

  datatype BridgeError =
    | ContradictoryPhase | BadContent | BadRole | EmptyPhase | Pausing | ForeignHandoff
    | MissingPayload | MissingInput | NoBridge | ExtraPayloads | MissingPhase | TooManyPhases
    | ProvenanceCount | BadBoundary

  type AgentRef(==)

  // ---- native history

  datatype Role = System | User | Assistant | Tool

  datatype Content =
    | Text(text: string)
    | Image(uri: string, mediaType: string)
    | Attachment(mediaType: string, data: string, detail: string)
    | Audio(uri: string, mediaType: string)
    | File(uri: string, mediaType: string)
    | ReasoningContent(text: string, signature: Option<string>)

  datatype Message = Message(role: Role, content: seq<Content>)
  datatype ToolOutput = ToolOutput(content: seq<Content>, isError: bool, shouldPause: bool)
  datatype Reasoning = Reasoning(
    id: string, text: string, signature: string, redactedData: string, encryptedContent: string)
  datatype Compaction = Compaction(id: string, content: string, encryptedContent: string, createdBy: string)
  datatype ToolCall = ToolCall(id: string, name: string, arguments: Json)

  datatype RunItem =
    | Plain(message: Message)
    | Phased(message: Message, phase: string)
    | Call(call: ToolCall)
    | ToolResult(callId: string, output: ToolOutput)
    | Handoff(callId: string, agent: string)
    | Reasoned(reasoning: Reasoning)
    | Compacted(compaction: Compaction)

  // ---- wire history

  datatype RawJson = Missing | Present(value: Json)
  datatype ImageAttachment = ImageAttachment(mediaType: string, data: string, detail: string)
  datatype MessageOutput = MessageOutput(text: string, phase: string, images: seq<ImageAttachment>)
  datatype ToolCallData = ToolCallData(id: string, name: string, input: RawJson)
  datatype ToolOutputData = ToolOutputData(callId: string, content: string, images: seq<ImageAttachment>, isError: bool)
  datatype HandoffData = HandoffData(fromAgent: string, toAgent: string)
  datatype ToolApprovalData = ToolApprovalData(toolName: string, input: RawJson, callId: string, approved: bool)

  datatype Wire = Wire(
    kind: int, agent: Option<AgentRef>, message: Option<MessageOutput>, toolCall: Option<ToolCallData>,
    toolOutput: Option<ToolOutputData>, handoffCall: Option<HandoffData>, handoffOutput: Option<HandoffData>,
    reasoning: Option<Reasoning>, compaction: Option<Compaction>, toolApproval: Option<ToolApprovalData>)

  function Blank(kind: int, agent: Option<AgentRef>): Wire {
    Wire(kind, agent, None, None, None, None, None, None, None, None)
  }

  datatype Phase = Pending | Approved | Denied
  datatype Marker = Marker(data: ToolApprovalData, phase: Phase, agent: Option<AgentRef>)
  datatype Boundary = Boundary(beforeItem: nat, marker: Marker)
  datatype History = History(items: seq<RunItem>, agents: seq<Option<AgentRef>>, markers: seq<Boundary>)

  // ---- content

  function ImageOf(c: Content): Result<ImageAttachment, BridgeError> {
    match c
    case Attachment(mediaType, data, detail) => Ok(ImageAttachment(mediaType, data, detail))
    case _ => Err(BadContent)
  }

  function ImagesOf(content: seq<Content>): Result<seq<ImageAttachment>, BridgeError> {
    if content == [] then Ok([])
    else
      var first :- ImageOf(content[0]);
      var rest :- ImagesOf(content[1..]);
      Ok([first] + rest)
  }

  predicate LeadingText(content: seq<Content>) {
    content != [] && content[0].Text?
  }

  function EncodeContent(content: seq<Content>): Result<(string, seq<ImageAttachment>), BridgeError> {
    var (text, attachments) := if LeadingText(content) then (content[0].text, content[1..]) else ("", content);
    var images :- ImagesOf(attachments);
    Ok((text, images))
  }

  function Attachments(images: seq<ImageAttachment>): seq<Content> {
    if images == [] then []
    else [Attachment(images[0].mediaType, images[0].data, images[0].detail)] + Attachments(images[1..])
  }

  function DecodeContent(text: string, images: seq<ImageAttachment>): seq<Content> {
    [Text(text)] + Attachments(images)
  }

  // What becomes of content on the wire: an empty text where no text leads.
  function WithText(content: seq<Content>): seq<Content> {
    if LeadingText(content) then content else [Text("")] + content
  }

  lemma {:induction false} ImagesAreAttachments(content: seq<Content>)
    ensures ImagesOf(content).Ok? ==> Attachments(ImagesOf(content).value) == content
    ensures ImagesOf(content).Ok? <==> forall c <- content :: c.Attachment?
  {
    if content != [] {
      ImagesAreAttachments(content[1..]);
      assert content == [content[0]] + content[1..];
      assert (forall c <- content :: c.Attachment?) <==>
        content[0].Attachment? && forall c <- content[1..] :: c.Attachment? by {
        if forall c <- content :: c.Attachment? { assert forall c <- content[1..] :: c in content; }
      }
      if ImagesOf(content).Ok? {
        var images := ImagesOf(content).value;
        var rest := ImagesOf(content[1..]).value;
        assert images == [ImageOf(content[0]).value] + rest && images[1..] == rest;
        assert Attachments(images) == [content[0]] + Attachments(rest);
      }
    }
  }

  lemma {:induction false} AttachmentsAreImages(images: seq<ImageAttachment>)
    ensures ImagesOf(Attachments(images)) == Ok(images)
  {
    if images != [] {
      AttachmentsAreImages(images[1..]);
      assert Attachments(images)[1..] == Attachments(images[1..]);
      assert images == [images[0]] + images[1..];
    }
  }

  lemma ContentRoundTrip(content: seq<Content>)
    requires EncodeContent(content).Ok?
    ensures var (text, images) := EncodeContent(content).value;
      DecodeContent(text, images) == WithText(content)
        && EncodeContent(DecodeContent(text, images)) == Ok((text, images))
  {
    var (text, images) := EncodeContent(content).value;
    ImagesAreAttachments(if LeadingText(content) then content[1..] else content);
    AttachmentsAreImages(images);
    assert DecodeContent(text, images)[1..] == Attachments(images);
    if LeadingText(content) {
      assert content == [content[0]] + content[1..];
    }
  }

  // ---- items

  function PhaseOf(item: RunItem): string {
    if item.Phased? then item.phase else ""
  }

  function EncodeItem(item: RunItem, agent: Option<AgentRef>): Result<Wire, BridgeError> {
    var wire := Blank(0, agent);
    match item
    case Handoff(_, _) => Err(ForeignHandoff)
    case Call(call) => Ok(wire.(kind := 1, toolCall := Some(ToolCallData(call.id, call.name, Present(call.arguments)))))
    case ToolResult(callId, output) =>
      if output.shouldPause then Err(Pausing)
      else
        var (content, images) :- EncodeContent(output.content);
        Ok(wire.(kind := 2, toolOutput := Some(ToolOutputData(callId, content, images, output.isError))))
    case Reasoned(reasoning) => Ok(wire.(kind := 5, reasoning := Some(reasoning)))
    case Compacted(compaction) => Ok(wire.(kind := 7, compaction := Some(compaction)))
    case _ =>
      if !(item.message.role == User && agent.None?) && !(item.message.role == Assistant && agent.Some?) then
        Err(BadRole)
      else if item.Phased? && item.phase == "" then Err(EmptyPhase)
      else
        var (text, images) :- EncodeContent(item.message.content);
        Ok(wire.(message := Some(MessageOutput(text, PhaseOf(item), images))))
  }

  // The item a wire record's kind and payload describe, before extra payloads are looked for.
  function Described(wire: Wire): Result<RunItem, BridgeError> {
    if wire.kind == 0 then
      if wire.message.None? then Err(MissingPayload)
      else
        var m := wire.message.value;
        var native := Message(if wire.agent.Some? then Assistant else User, DecodeContent(m.text, m.images));
        Ok(if m.phase == "" then Plain(native) else Phased(native, m.phase))
    else if wire.kind == 1 then
      if wire.toolCall.None? then Err(MissingPayload)
      else if wire.toolCall.value.input.Missing? then Err(MissingInput)
      else Ok(Call(ToolCall(wire.toolCall.value.id, wire.toolCall.value.name, wire.toolCall.value.input.value)))
    else if wire.kind == 2 then
      if wire.toolOutput.None? then Err(MissingPayload)
      else
        var o := wire.toolOutput.value;
        Ok(ToolResult(o.callId, ToolOutput(DecodeContent(o.content, o.images), o.isError, false)))
    else if wire.kind == 5 then
      if wire.reasoning.None? then Err(MissingPayload) else Ok(Reasoned(wire.reasoning.value))
    else if wire.kind == 7 then
      if wire.compaction.None? then Err(MissingPayload) else Ok(Compacted(wire.compaction.value))
    else Err(NoBridge)
  }

  function DecodeItem(wire: Wire): Result<RunItem, BridgeError> {
    var item :- Described(wire);
    var again :- EncodeItem(item, wire.agent);
    if again != wire then Err(ExtraPayloads) else Ok(item)
  }

  function Normal(item: RunItem): RunItem {
    match item
    case Plain(m) => Plain(m.(content := WithText(m.content)))
    case Phased(m, phase) => Phased(m.(content := WithText(m.content)), phase)
    case ToolResult(id, output) => ToolResult(id, output.(content := WithText(output.content)))
    case _ => item
  }

  predicate TextFirst(item: RunItem) {
    match item
    case Plain(m) => LeadingText(m.content)
    case Phased(m, _) => LeadingText(m.content)
    case ToolResult(_, output) => LeadingText(output.content)
    case _ => true
  }

  // Decoding an encoded item gives it back up to a missing leading text, so exactly when there is one.
  lemma ItemRoundTrip(item: RunItem, agent: Option<AgentRef>)
    requires EncodeItem(item, agent).Ok?
    ensures DecodeItem(EncodeItem(item, agent).value) == Ok(Normal(item))
    ensures DecodeItem(EncodeItem(item, agent).value) == Ok(item) <==> TextFirst(item)
    ensures EncodeItem(item, agent).value.kind != 6 && EncodeItem(item, agent).value.agent == agent
  {
    hide EncodeContent, DecodeContent;
    match item
    case ToolResult(_, output) => ContentRoundTrip(output.content);
    case Plain(m) => ContentRoundTrip(m.content);
    case Phased(m, _) => ContentRoundTrip(m.content);
    case _ =>
    NormalIsSame(item);
  }

  lemma NormalIsSame(item: RunItem)
    ensures Normal(item) == item <==> TextFirst(item)
  {
    match item
    case ToolResult(_, output) =>
      assert WithText(output.content) == output.content <==> LeadingText(output.content) by { Longer(output.content); }
    case Plain(m) => assert WithText(m.content) == m.content <==> LeadingText(m.content) by { Longer(m.content); }
    case Phased(m, _) => assert WithText(m.content) == m.content <==> LeadingText(m.content) by { Longer(m.content); }
    case _ =>
  }

  lemma Longer(content: seq<Content>)
    ensures !LeadingText(content) ==> |WithText(content)| == |content| + 1
  {}

  // ---- markers

  function Validate(m: Marker): Result<(), BridgeError> {
    if m.data.approved != (m.phase == Approved) then Err(ContradictoryPhase) else Ok(())
  }

  function MarkerWire(m: Marker): Result<Wire, BridgeError> {
    var _ :- Validate(m);
    Ok(Blank(6, m.agent).(toolApproval := Some(m.data)))
  }

  function MarkerOf(wire: Wire, phases: seq<Phase>, used: nat): Result<Marker, BridgeError> {
    if wire.toolApproval.None? then Err(MissingPayload)
    else if used >= |phases| then Err(MissingPhase)
    else
      var marker := Marker(wire.toolApproval.value, phases[used], wire.agent);
      var again :- MarkerWire(marker);
      if again != wire then Err(ExtraPayloads) else Ok(marker)
  }

  // ---- histories

  predicate Ordered(markers: seq<Boundary>, count: nat) {
    && (forall m <- markers :: m.beforeItem <= count)
    && forall i, j :: 0 <= i < j < |markers| ==> markers[i].beforeItem <= markers[j].beforeItem
  }

  // The first fault of the boundaries and markers, in order.
  function Check(markers: seq<Boundary>, count: nat): Result<(), BridgeError> {
    if markers == [] then Ok(())
    else
      var (before, last) := (markers[..|markers| - 1], markers[|markers| - 1]);
      var _ :- Check(before, count);
      var previous := if before == [] then 0 else before[|before| - 1].beforeItem;
      if last.beforeItem < previous || last.beforeItem > count then Err(BadBoundary)
      else Validate(last.marker)
  }

  // The merged history, read from its end: a marker after the last item, or the last item.
  function Merged(
    items: seq<RunItem>, agents: seq<Option<AgentRef>>, markers: seq<Boundary>): Result<seq<Wire>, BridgeError>
    requires |agents| == |items|
    decreases |items| + |markers|
  {
    if markers != [] && (items == [] || markers[|markers| - 1].beforeItem >= |items|) then
      var before :- Merged(items, agents, markers[..|markers| - 1]);
      var last :- MarkerWire(markers[|markers| - 1].marker);
      Ok(before + [last])
    else if items != [] then
      var n := |items| - 1;
      var before :- Merged(items[..n], agents[..n], markers);
      var last :- EncodeItem(items[n], agents[n]);
      Ok(before + [last])
    else Ok([])
  }

  function EncodeHistory(
    items: seq<RunItem>, agents: seq<Option<AgentRef>>, markers: seq<Boundary>): Result<seq<Wire>, BridgeError>
  {
    if |agents| != |items| then Err(ProvenanceCount)
    else
      var _ :- Check(markers, |items|);
      Merged(items, agents, markers)
  }

  // The history of a wire list, using one phase per marker.
  function Split(wire: seq<Wire>, phases: seq<Phase>): Result<History, BridgeError> {
    if wire == [] then Ok(History([], [], []))
    else
      var (before, last) := (wire[..|wire| - 1], wire[|wire| - 1]);
      var h :- Split(before, phases);
      if last.kind == 6 then
        var marker :- MarkerOf(last, phases, |h.markers|);
        Ok(h.(markers := h.markers + [Boundary(|h.items|, marker)]))
      else
        var item :- DecodeItem(last);
        Ok(h.(items := h.items + [item], agents := h.agents + [last.agent]))
  }

  function DecodeHistory(wire: seq<Wire>, phases: seq<Phase>): Result<History, BridgeError> {
    var h :- Split(wire, phases);
    if |h.markers| < |phases| then Err(TooManyPhases) else Ok(h)
  }

  function PhasesOf(markers: seq<Boundary>): seq<Phase> {
    seq(|markers|, i requires 0 <= i < |markers| => markers[i].marker.phase)
  }

  function NormalItems(items: seq<RunItem>): (r: seq<RunItem>)
    ensures |r| == |items|
  {
    seq(|items|, i requires 0 <= i < |items| => Normal(items[i]))
  }

  lemma OrderedMore(before: seq<Boundary>, last: Boundary, count: nat)
    ensures Ordered(before + [last], count) <==>
      Ordered(before, count) && last.beforeItem <= count
        && (before != [] ==> before[|before| - 1].beforeItem <= last.beforeItem)
  {
    var all := before + [last];
    assert last in all && forall m <- before :: m in all;
    if Ordered(all, count) {
      forall i, j | 0 <= i < j < |before| ensures before[i].beforeItem <= before[j].beforeItem {
        assert all[i] == before[i] && all[j] == before[j];
      }
      if before != [] {
        assert all[|before| - 1] == before[|before| - 1] && all[|before|] == last;
      }
    }
    if Ordered(before, count) && last.beforeItem <= count
      && (before != [] ==> before[|before| - 1].beforeItem <= last.beforeItem) {
      forall i, j | 0 <= i < j < |all| ensures all[i].beforeItem <= all[j].beforeItem {
        assert i < |before| - 1 ==> before[i].beforeItem <= before[|before| - 1].beforeItem;
      }
    }
  }

  lemma {:induction false} CheckIs(markers: seq<Boundary>, count: nat)
    ensures Check(markers, count).Ok? <==> Ordered(markers, count) && forall m <- markers :: Validate(m.marker).Ok?
  {
    hide Validate, Ordered;
    if markers == [] {
      NoneOrdered(count);
    } else {
      var before, last := markers[..|markers| - 1], markers[|markers| - 1];
      assert markers == before + [last];
      CheckIs(before, count);
      OrderedMore(before, last, count);
    }
  }

  lemma NoneOrdered(count: nat)
    ensures Ordered([], count)
  {}

  // One more marker at the end, one more item at the end.
  lemma {:induction false} MergedMarker(
    items: seq<RunItem>, agents: seq<Option<AgentRef>>, before: seq<Boundary>, last: Boundary)
    requires |agents| == |items| && last.beforeItem >= |items|
    ensures Merged(items, agents, before + [last]) ==
      (match Merged(items, agents, before)
      case Err(e) => Err(e)
      case Ok(w) => match MarkerWire(last.marker) case Err(e) => Err(e) case Ok(x) => Ok(w + [x]))
  {
    hide EncodeItem, MarkerWire;
    assert (before + [last])[..|before|] == before;
  }

  lemma {:induction false} MergedItem(
    items: seq<RunItem>, agents: seq<Option<AgentRef>>, item: RunItem, agent: Option<AgentRef>, markers: seq<Boundary>)
    requires |agents| == |items| && (markers != [] ==> markers[|markers| - 1].beforeItem <= |items|)
    ensures Merged(items + [item], agents + [agent], markers) ==
      (match Merged(items, agents, markers)
      case Err(e) => Err(e)
      case Ok(w) => match EncodeItem(item, agent) case Err(e) => Err(e) case Ok(x) => Ok(w + [x]))
  {
    hide EncodeItem, MarkerWire;
    assert (items + [item])[..|items|] == items && (agents + [agent])[..|items|] == agents;
  }

  // Splitting what was merged: the same items up to a leading text, agents, markers and boundaries.
  lemma {:induction false} MergedSplits(
    items: seq<RunItem>, agents: seq<Option<AgentRef>>, markers: seq<Boundary>, phases: seq<Phase>)
    requires |agents| == |items| && Ordered(markers, |items|) && Merged(items, agents, markers).Ok?
    requires |markers| <= |phases| && forall i :: 0 <= i < |markers| ==> phases[i] == markers[i].marker.phase
    ensures Split(Merged(items, agents, markers).value, phases) == Ok(History(NormalItems(items), agents, markers))
    decreases |items| + |markers|
  {
    hide *;
    if markers != [] && (items == [] || markers[|markers| - 1].beforeItem >= |items|) {
      var before, last := markers[..|markers| - 1], markers[|markers| - 1];
      assert markers == before + [last];
      OrderedMore(before, last, |items|);
      LastMarker(items, before, last);
      MergedMarker(items, agents, before, last);
      MergedSplits(items, agents, before, phases);
      MarkerSplits(Merged(items, agents, before).value, last, phases, |before|);
      SplitMore(Merged(items, agents, before).value, MarkerWire(last.marker).value, phases);
    } else if items != [] {
      var n := |items| - 1;
      assert items == items[..n] + [items[n]] && agents == agents[..n] + [agents[n]];
      LastItem(markers, |items|);
      MergedItem(items[..n], agents[..n], items[n], agents[n], markers);
      MergedSplits(items[..n], agents[..n], markers, phases);
      ItemRoundTrip(items[n], agents[n]);
      SplitMore(Merged(items[..n], agents[..n], markers).value, EncodeItem(items[n], agents[n]).value, phases);
      NormalMore(items[..n], items[n]);
      assert Split(Merged(items, agents, markers).value, phases).value.items == NormalItems(items);
    } else {
      assert items == [] && agents == [] && markers == [];
      NothingSplits(phases);
    }
  }

  lemma LastMarker(items: seq<RunItem>, before: seq<Boundary>, last: Boundary)
    requires Ordered(before + [last], |items|) && last.beforeItem >= |items|
    ensures last.beforeItem == |items|
  {
    assert last in before + [last];
  }

  lemma LastItem(markers: seq<Boundary>, count: nat)
    requires Ordered(markers, count) && count > 0 && (markers != [] ==> markers[|markers| - 1].beforeItem < count)
    ensures Ordered(markers, count - 1) && (markers != [] ==> markers[|markers| - 1].beforeItem <= count - 1)
  {
    forall m | m in markers ensures m.beforeItem <= count - 1 {
      var i :| 0 <= i < |markers| && markers[i] == m;
      assert i < |markers| - 1 ==> markers[i].beforeItem <= markers[|markers| - 1].beforeItem;
    }
  }

  lemma MarkerSplits(before: seq<Wire>, last: Boundary, phases: seq<Phase>, used: nat)
    requires MarkerWire(last.marker).Ok? && used < |phases| && phases[used] == last.marker.phase
    ensures MarkerWire(last.marker).value.kind == 6
    ensures MarkerOf(MarkerWire(last.marker).value, phases, used) == Ok(last.marker)
  {}

  lemma NormalMore(items: seq<RunItem>, item: RunItem)
    ensures NormalItems(items + [item]) == NormalItems(items) + [Normal(item)]
  {
    hide Normal;
  }

  lemma NothingSplits(phases: seq<Phase>)
    ensures Merged([], [], []) == Ok([]) && Split([], phases) == Ok(History([], [], [])) && NormalItems([]) == []
  {}

  lemma SplitMore(before: seq<Wire>, last: Wire, phases: seq<Phase>)
    requires Split(before, phases).Ok?
    ensures var h := Split(before, phases).value;
      Split(before + [last], phases) ==
        if last.kind == 6 then
          (match MarkerOf(last, phases, |h.markers|)
          case Err(e) => Err(e)
          case Ok(marker) => Ok(h.(markers := h.markers + [Boundary(|h.items|, marker)])))
        else
          match DecodeItem(last)
          case Err(e) => Err(e)
          case Ok(item) => Ok(h.(items := h.items + [item], agents := h.agents + [last.agent]))
  {
    hide MarkerOf, DecodeItem;
    assert (before + [last])[..|before|] == before;
  }

  // Every encodable history decodes, with its own phases, to itself up to leading empty texts.
  lemma EncodedDecodes(items: seq<RunItem>, agents: seq<Option<AgentRef>>, markers: seq<Boundary>)
    requires EncodeHistory(items, agents, markers).Ok?
    ensures DecodeHistory(EncodeHistory(items, agents, markers).value, PhasesOf(markers)) ==
      Ok(History(NormalItems(items), agents, markers))
  {
    hide Merged, Split, Normal;
    CheckIs(markers, |items|);
    MergedSplits(items, agents, markers, PhasesOf(markers));
  }

  // It decodes to exactly itself if and only if all message and tool-result content starts with text.
  lemma EncodeDecodes(items: seq<RunItem>, agents: seq<Option<AgentRef>>, markers: seq<Boundary>)
    requires EncodeHistory(items, agents, markers).Ok?
    ensures DecodeHistory(EncodeHistory(items, agents, markers).value, PhasesOf(markers)) ==
      Ok(History(items, agents, markers))
      <==> forall item <- items :: TextFirst(item)
  {
    hide EncodeHistory, DecodeHistory, Normal, TextFirst;
    EncodedDecodes(items, agents, markers);
    forall i | 0 <= i < |items| ensures NormalItems(items)[i] == items[i] <==> TextFirst(items[i]) {
      NormalIsSame(items[i]);
    }
    if forall item <- items :: TextFirst(item) {
      assert forall i :: 0 <= i < |items| ==> items[i] in items;
      assert NormalItems(items) == items;
    }
  }

  // What a decoded history is merged back into is the wire list it came from.
  lemma {:induction false} SplitMerges(wire: seq<Wire>, phases: seq<Phase>)
    requires Split(wire, phases).Ok?
    ensures var h := Split(wire, phases).value;
      && |h.agents| == |h.items| && |h.markers| <= |phases| && Ordered(h.markers, |h.items|)
      && (forall m <- h.markers :: Validate(m.marker).Ok?)
      && (forall i :: 0 <= i < |h.markers| ==> h.markers[i].marker.phase == phases[i])
      && Merged(h.items, h.agents, h.markers) == Ok(wire)
  {
    hide *;
    if wire == [] {
      NothingSplits(phases);
      NoneOrdered(0);
    } else {
      var before, last := wire[..|wire| - 1], wire[|wire| - 1];
      assert wire == before + [last];
      PrefixSplits(before, last, phases);
      SplitMerges(before, phases);
      SplitMore(before, last, phases);
      var h := Split(before, phases).value;
      if last.kind == 6 {
        var marker := MarkerOf(last, phases, |h.markers|).value;
        MarkerIs(last, phases, |h.markers|);
        OrderedMore(h.markers, Boundary(|h.items|, marker), |h.items|);
        OrderedEnds(h.markers, |h.items|);
        MergedMarker(h.items, h.agents, h.markers, Boundary(|h.items|, marker));
      } else {
        ItemIs(last);
        OrderedEnds(h.markers, |h.items|);
        MergedItem(h.items, h.agents, DecodeItem(last).value, last.agent, h.markers);
      }
    }
  }

  lemma PrefixSplits(before: seq<Wire>, last: Wire, phases: seq<Phase>)
    requires Split(before + [last], phases).Ok?
    ensures Split(before, phases).Ok?
  {
    hide MarkerOf, DecodeItem;
    assert (before + [last])[..|before|] == before;
  }

  lemma MarkerIs(wire: Wire, phases: seq<Phase>, used: nat)
    requires MarkerOf(wire, phases, used).Ok?
    ensures var marker := MarkerOf(wire, phases, used).value;
      used < |phases| && marker.phase == phases[used] && Validate(marker).Ok? && MarkerWire(marker) == Ok(wire)
  {}

  lemma ItemIs(wire: Wire)
    requires DecodeItem(wire).Ok?
    ensures EncodeItem(DecodeItem(wire).value, wire.agent) == Ok(wire)
  {
    hide EncodeItem, Described;
  }

  lemma OrderedEnds(markers: seq<Boundary>, count: nat)
    requires Ordered(markers, count)
    ensures Ordered(markers, count + 1) && (markers != [] ==> markers[|markers| - 1].beforeItem <= count)
  {
    if markers != [] { assert markers[|markers| - 1] in markers; }
  }

  // Any wire list that decodes is re-encoded identically, and uses every given phase in order.
  lemma DecodedEncodes(wire: seq<Wire>, phases: seq<Phase>)
    requires DecodeHistory(wire, phases).Ok?
    ensures var h := DecodeHistory(wire, phases).value;
      && EncodeHistory(h.items, h.agents, h.markers) == Ok(wire)
      && PhasesOf(h.markers) == phases
  {
    hide Merged, Split;
    SplitMerges(wire, phases);
    var h := DecodeHistory(wire, phases).value;
    CheckIs(h.markers, |h.items|);
  }

  // ---- the loops

  method Encode(
    items: seq<RunItem>, agents: seq<Option<AgentRef>>, markers: seq<Boundary>)
    returns (r: Result<seq<Wire>, BridgeError>)
    ensures r == EncodeHistory(items, agents, markers)
  {
    hide EncodeItem, Merged, Ordered, Check, MarkerWire;
    if |agents| != |items| {
      return Err(ProvenanceCount);
    }
    var checked := CheckAll(markers, |items|);
    match checked
    case Err(e) => return Err(e);
    case Ok(_) =>
      CheckIs(markers, |items|);
      r := Merge(items, agents, markers);
  }

  method CheckAll(markers: seq<Boundary>, count: nat) returns (r: Result<(), BridgeError>)
    ensures r == Check(markers, count)
  {
    hide Validate;
    var previous, n := 0, 0;
    while n < |markers|
      invariant 0 <= n <= |markers| && Check(markers[..n], count).Ok?
      invariant previous == if n == 0 then 0 else markers[n - 1].beforeItem
    {
      assert markers[..n + 1][..n] == markers[..n];
      var boundary := markers[n];
      if boundary.beforeItem < previous || boundary.beforeItem > count {
        CheckStops(markers, count, n + 1);
        return Err(BadBoundary);
      }
      var valid := Validate(boundary.marker);
      if valid.Err? {
        CheckStops(markers, count, n + 1);
        return Err(valid.error);
      }
      previous := boundary.beforeItem;
      n := n + 1;
    }
    assert markers[..n] == markers;
    assert Check(markers, count).value == ();
    return Ok(());
  }

  method Merge(
    items: seq<RunItem>, agents: seq<Option<AgentRef>>, markers: seq<Boundary>)
    returns (r: Result<seq<Wire>, BridgeError>)
    requires |agents| == |items| && Ordered(markers, |items|)
    ensures r == Merged(items, agents, markers)
  {
    hide EncodeItem, Merged, Ordered, MarkerWire, Between;
    var wire: seq<Wire>, index, m := [], 0, 0;
    NothingMerged(items, agents, markers);
    while index < |items|
      invariant Between(markers, index, m) && m <= |markers| && index <= |items|
      invariant Merged(items[..index], agents[..index], markers[..m]) == Ok(wire)
    {
      while m < |markers| && markers[m].beforeItem == index
        invariant Between(markers, index, m) && m <= |markers| && index < |items|
        invariant Merged(items[..index], agents[..index], markers[..m]) == Ok(wire)
      {
        MarkerNext(items, agents, markers, index, m);
        var next := MarkerWire(markers[m].marker);
        if next.Err? {
          MergedStops(items, agents, markers, index, m + 1);
          return Err(next.error);
        }
        wire, m := wire + [next.value], m + 1;
      }
      ItemNext(items, agents, markers, index, m);
      var next := EncodeItem(items[index], agents[index]);
      if next.Err? {
        MergedStops(items, agents, markers, index + 1, m);
        return Err(next.error);
      }
      wire, index := wire + [next.value], index + 1;
    }
    while m < |markers|
      invariant Between(markers, index, m) && m <= |markers| && index == |items|
      invariant Merged(items[..index], agents[..index], markers[..m]) == Ok(wire)
    {
      AtEnd(markers, index, m);
      MarkerNext(items, agents, markers, index, m);
      var next := MarkerWire(markers[m].marker);
      if next.Err? {
        MergedStops(items, agents, markers, index, m + 1);
        return Err(next.error);
      }
      wire, m := wire + [next.value], m + 1;
    }
    assert items[..index] == items && agents[..index] == agents && markers[..m] == markers;
    return Ok(wire);
  }

  // All that is left after the last item are markers at the end.
  lemma AtEnd(markers: seq<Boundary>, count: nat, m: nat)
    requires Ordered(markers, count) && Between(markers, count, m) && m < |markers|
    ensures markers[m].beforeItem == count
  {
    assert markers[m] in markers;
  }

  method Decode(wire: seq<Wire>, phases: seq<Phase>) returns (r: Result<History, BridgeError>)
    ensures r == DecodeHistory(wire, phases)
  {
    hide DecodeItem, MarkerOf;
    var h, n := History([], [], []), 0;
    while n < |wire|
      invariant 0 <= n <= |wire| && Split(wire[..n], phases) == Ok(h)
    {
      assert wire[..n + 1] == wire[..n] + [wire[n]];
      SplitMore(wire[..n], wire[n], phases);
      if wire[n].kind == 6 {
        var marker := MarkerOf(wire[n], phases, |h.markers|);
        if marker.Err? {
          SplitStops(wire, phases, n + 1);
          return Err(marker.error);
        }
        h := h.(markers := h.markers + [Boundary(|h.items|, marker.value)]);
      } else {
        var item := DecodeItem(wire[n]);
        if item.Err? {
          SplitStops(wire, phases, n + 1);
          return Err(item.error);
        }
        h := h.(items := h.items + [item.value], agents := h.agents + [wire[n].agent]);
      }
      n := n + 1;
    }
    assert wire[..n] == wire;
    if |h.markers| < |phases| {
      return Err(TooManyPhases);
    }
    return Ok(h);
  }

  // The markers before `m` belong at or before item `index`, the others at or after it.
  ghost predicate Between(markers: seq<Boundary>, index: nat, m: nat) {
    && m <= |markers|
    && (forall k :: 0 <= k < m ==> markers[k].beforeItem <= index)
    && forall k :: m <= k < |markers| ==> markers[k].beforeItem >= index
  }

  lemma NothingMerged(items: seq<RunItem>, agents: seq<Option<AgentRef>>, markers: seq<Boundary>)
    requires |agents| == |items|
    ensures Merged(items[..0], agents[..0], markers[..0]) == Ok([]) && Between(markers, 0, 0)
  {}

  lemma MarkerNext(items: seq<RunItem>, agents: seq<Option<AgentRef>>, markers: seq<Boundary>, index: nat, m: nat)
    requires |agents| == |items| && index <= |items| && m < |markers| && markers[m].beforeItem == index
    ensures Merged(items[..index], agents[..index], markers[..m + 1]) ==
      (match Merged(items[..index], agents[..index], markers[..m])
      case Err(e) => Err(e)
      case Ok(before) => match MarkerWire(markers[m].marker) case Err(e) => Err(e) case Ok(last) => Ok(before + [last]))
    ensures Between(markers, index, m) ==> Between(markers, index, m + 1)
  {
    hide Merged, MarkerWire;
    assert markers[..m + 1] == markers[..m] + [markers[m]];
    MergedMarker(items[..index], agents[..index], markers[..m], markers[m]);
  }

  lemma ItemNext(items: seq<RunItem>, agents: seq<Option<AgentRef>>, markers: seq<Boundary>, index: nat, m: nat)
    requires |agents| == |items| && index < |items| && Between(markers, index, m) && Ordered(markers, |items|)
    requires m < |markers| ==> markers[m].beforeItem != index
    ensures Merged(items[..index + 1], agents[..index + 1], markers[..m]) ==
      (match Merged(items[..index], agents[..index], markers[..m])
      case Err(e) => Err(e)
      case Ok(before) =>
        match EncodeItem(items[index], agents[index]) case Err(e) => Err(e) case Ok(last) => Ok(before + [last]))
    ensures Between(markers, index + 1, m)
  {
    hide Merged, EncodeItem;
    assert items[..index + 1] == items[..index] + [items[index]]
      && agents[..index + 1] == agents[..index] + [agents[index]];
    MergedItem(items[..index], agents[..index], items[index], agents[index], markers[..m]);
    forall k | m <= k < |markers| ensures markers[k].beforeItem >= index + 1 {
      assert m < k ==> markers[m].beforeItem <= markers[k].beforeItem;
    }
  }

  // An error in the merged part is the error of the whole.
  lemma {:induction false} MergedStops(
    items: seq<RunItem>, agents: seq<Option<AgentRef>>, markers: seq<Boundary>, index: nat, m: nat)
    requires |agents| == |items| && index <= |items| && Between(markers, index, m) && Ordered(markers, |items|)
    requires Merged(items[..index], agents[..index], markers[..m]).Err?
    ensures Merged(items, agents, markers) == Merged(items[..index], agents[..index], markers[..m])
    decreases |items| - index + |markers| - m
  {
    hide Merged, EncodeItem, MarkerWire, Ordered;
    if index == |items| && m < |markers| { AtEnd(markers, index, m); }
    if m < |markers| && markers[m].beforeItem == index {
      MarkerNext(items, agents, markers, index, m);
      MergedStops(items, agents, markers, index, m + 1);
    } else if index < |items| {
      ItemNext(items, agents, markers, index, m);
      MergedStops(items, agents, markers, index + 1, m);
    } else {
      assert items[..index] == items && agents[..index] == agents && markers[..m] == markers;
    }
  }

  lemma {:induction false} CheckStops(markers: seq<Boundary>, count: nat, n: nat)
    requires n <= |markers| && Check(markers[..n], count).Err?
    ensures Check(markers, count) == Check(markers[..n], count)
    decreases |markers| - n
  {
    hide Validate;
    if n == |markers| {
      assert markers[..n] == markers;
    } else {
      assert markers[..n + 1][..n] == markers[..n];
      CheckStops(markers, count, n + 1);
    }
  }

  lemma {:induction false} SplitStops(wire: seq<Wire>, phases: seq<Phase>, n: nat)
    requires n <= |wire| && Split(wire[..n], phases).Err?
    ensures Split(wire, phases) == Split(wire[..n], phases)
    decreases |wire| - n
  {
    hide DecodeItem, MarkerOf;
    if n == |wire| {
      assert wire[..n] == wire;
    } else {
      assert wire[..n + 1][..n] == wire[..n];
      SplitStops(wire, phases, n + 1);
    }
  }
}
