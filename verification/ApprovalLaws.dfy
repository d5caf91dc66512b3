/**
 Which native items and approval markers a wire history can hold, and the record each becomes (approval.rs),
 field by field.
 */
module ApprovalLaws {
  import opened Wrappers
  import opened ApprovalHistory

  // ---- content

  function Attached(images: seq<ImageAttachment>): seq<Content> {
    seq(|images|, i requires 0 <= i < |images| =>
      Attachment(images[i].mediaType, images[i].data, images[i].detail))
  }

  lemma {:induction false} AttachedEncode(images: seq<ImageAttachment>)
    ensures ImagesOf(Attached(images)) == Ok(images)
  {
    if images != [] {
      assert Attached(images)[1..] == Attached(images[1..]);
      AttachedEncode(images[1..]);
      assert images == [images[0]] + images[1..];
    }
  }

  // Content is at most one text, at its front, and attachments: those become the text and the images.
  lemma ContentLaw(text: string, images: seq<ImageAttachment>)
    ensures EncodeContent([Text(text)] + Attached(images)) == Ok((text, images))
    ensures EncodeContent(Attached(images)) == Ok(("", images))
    ensures DecodeContent(text, images) == [Text(text)] + Attached(images)
  {
    AttachedEncode(images);
    assert ([Text(text)] + Attached(images))[1..] == Attached(images);
    AttachmentsAre(images);
  }

  lemma {:induction false} AttachmentsAre(images: seq<ImageAttachment>)
    ensures Attachments(images) == Attached(images)
  {
    if images != [] {
      AttachmentsAre(images[1..]);
      assert Attached(images) == [Attached(images)[0]] + Attached(images[1..]);
    }
  }

  predicate Carried(content: seq<Content>) {
    forall i :: 0 <= i < |content| ==> content[i].Attachment? || (i == 0 && content[i].Text?)
  }

  lemma CarriedLaw(content: seq<Content>)
    ensures EncodeContent(content).Ok? <==> Carried(content)
    ensures EncodeContent(content).Err? ==> EncodeContent(content) == Err(BadContent)
  {
    var attachments := if LeadingText(content) then content[1..] else content;
    ImagesAreAttachments(attachments);
    ImagesFail(attachments);
    if EncodeContent(content).Ok? {
      forall i | 0 <= i < |content| ensures content[i].Attachment? || (i == 0 && content[i].Text?) {
        if LeadingText(content) && i > 0 {
          assert content[i] == attachments[i - 1] && attachments[i - 1] in attachments;
        } else if !LeadingText(content) {
          assert content[i] in attachments;
        }
      }
    } else {
      var c :| c in attachments && !c.Attachment?;
      var i :| 0 <= i < |attachments| && attachments[i] == c;
      assert c == content[if LeadingText(content) then i + 1 else i];
    }
  }

  lemma {:induction false} ImagesFail(content: seq<Content>)
    ensures ImagesOf(content).Err? ==> ImagesOf(content) == Err(BadContent)
  {
    if content != [] {
      ImagesFail(content[1..]);
    }
  }

  // ---- records

  // The record of a kind with nothing in it but its agent.
  function Record(kind: int, agent: Option<AgentRef>): Wire {
    Wire(kind, agent, None, None, None, None, None, None, None, None)
  }

  // Content that reads as this text and these images.
  predicate Reads(content: seq<Content>, text: string, images: seq<ImageAttachment>) {
    content == [Text(text)] + Attached(images) || (text == "" && content == Attached(images))
  }

  predicate Speaks(m: Message, agent: Option<AgentRef>) {
    (m.role == User && agent == None) || (m.role == Assistant && agent != None)
  }

  // A user's message has no agent and an assistant's has one; other roles have no record, nor has an
  // empty phase. Its record has kind 0.
  lemma MessageLaw(
    m: Message, phase: string, agent: Option<AgentRef>, text: string, images: seq<ImageAttachment>)
    ensures !Speaks(m, agent) ==> EncodeItem(Plain(m), agent) == EncodeItem(Phased(m, phase), agent) == Err(BadRole)
    ensures Speaks(m, agent) ==> EncodeItem(Phased(m, ""), agent) == Err(EmptyPhase)
    ensures Speaks(m, agent) && !Carried(m.content) ==>
      EncodeItem(Plain(m), agent) == Err(BadContent)
    ensures Speaks(m, agent) && !Carried(m.content) && phase != "" ==>
      EncodeItem(Phased(m, phase), agent) == Err(BadContent)
    ensures Speaks(m, agent) && Reads(m.content, text, images) ==>
      EncodeItem(Plain(m), agent) == Ok(Record(0, agent).(message := Some(MessageOutput(text, "", images))))
    ensures Speaks(m, agent) && Reads(m.content, text, images) && phase != "" ==>
      EncodeItem(Phased(m, phase), agent) ==
        Ok(Record(0, agent).(message := Some(MessageOutput(text, phase, images))))
  {
    hide EncodeContent, Attached, Carried;
    CarriedLaw(m.content);
    ContentLaw(text, images);
  }

  // A tool result has kind 2, and no record if it pauses the run.
  lemma ResultLaw(id: string, output: ToolOutput, agent: Option<AgentRef>, text: string, images: seq<ImageAttachment>)
    ensures output.shouldPause ==> EncodeItem(ToolResult(id, output), agent) == Err(Pausing)
    ensures !output.shouldPause && !Carried(output.content) ==>
      EncodeItem(ToolResult(id, output), agent) == Err(BadContent)
    ensures !output.shouldPause && Reads(output.content, text, images) ==>
      EncodeItem(ToolResult(id, output), agent) ==
        Ok(Record(2, agent).(toolOutput := Some(ToolOutputData(id, text, images, output.isError))))
  {
    hide EncodeContent, Attached, Carried;
    CarriedLaw(output.content);
    ContentLaw(text, images);
  }

  // Calls, reasoning and compactions keep all they have, as kinds 1, 5 and 7; handoffs have no record.
  lemma OtherItemLaw(item: RunItem, agent: Option<AgentRef>)
    ensures item.Call? ==>
      EncodeItem(item, agent) == Ok(Record(1, agent).(
        toolCall := Some(ToolCallData(item.call.id, item.call.name, Present(item.call.arguments)))))
    ensures item.Reasoned? ==> EncodeItem(item, agent) == Ok(Record(5, agent).(reasoning := Some(item.reasoning)))
    ensures item.Compacted? ==> EncodeItem(item, agent) == Ok(Record(7, agent).(compaction := Some(item.compaction)))
    ensures item.Handoff? ==> EncodeItem(item, agent) == Err(ForeignHandoff)
  {}

  // A marker is a record of kind 6 with its data; whether it says approved must fit its phase.
  lemma MarkerLaw(m: Marker)
    ensures MarkerWire(m) ==
      if m.data.approved == (m.phase == Approved) then Ok(Record(6, m.agent).(toolApproval := Some(m.data)))
      else Err(ContradictoryPhase)
  {}

  // A record of another kind, without its payload or with another one, is no item.
  lemma ForeignLaw(wire: Wire)
    ensures wire.kind !in {0, 1, 2, 5, 7} ==> DecodeItem(wire) == Err(NoBridge)
    ensures wire.kind == 0 && wire.message == None ==> DecodeItem(wire) == Err(MissingPayload)
    ensures wire.kind == 1 && wire.toolCall == None ==> DecodeItem(wire) == Err(MissingPayload)
    ensures wire.kind == 1 && wire.toolCall.Some? && wire.toolCall.value.input.Missing? ==>
      DecodeItem(wire) == Err(MissingInput)
    ensures wire.kind == 2 && wire.toolOutput == None ==> DecodeItem(wire) == Err(MissingPayload)
    ensures wire.kind == 5 && wire.reasoning == None ==> DecodeItem(wire) == Err(MissingPayload)
    ensures wire.kind == 7 && wire.compaction == None ==> DecodeItem(wire) == Err(MissingPayload)
  {
    hide EncodeItem;
  }

  // ---- histories

  ghost predicate ItemsEncode(items: seq<RunItem>, agents: seq<Option<AgentRef>>)
    requires |agents| == |items|
  {
    forall i :: 0 <= i < |items| ==> EncodeItem(items[i], agents[i]).Ok?
  }

  ghost predicate MarkersFit(markers: seq<Boundary>) {
    forall m <- markers :: m.marker.data.approved == (m.marker.phase == Approved)
  }

  ghost predicate Encodable(
    items: seq<RunItem>, agents: seq<Option<AgentRef>>, markers: seq<Boundary>)
  {
    && |agents| == |items|
    && ItemsEncode(items, agents) && MarkersFit(markers)
    && (forall m <- markers :: m.beforeItem <= |items|)
    && forall i, j :: 0 <= i < j < |markers| ==> markers[i].beforeItem <= markers[j].beforeItem
  }

  // A history has a wire form exactly when each item has one, each marker fits its phase, and the
  // markers come in the order of the items they stand before. It has one record for each.
  lemma EncodableLaw(items: seq<RunItem>, agents: seq<Option<AgentRef>>, markers: seq<Boundary>)
    ensures EncodeHistory(items, agents, markers).Ok? <==> Encodable(items, agents, markers)
    ensures EncodeHistory(items, agents, markers).Ok? ==>
      |EncodeHistory(items, agents, markers).value| == |items| + |markers|
  {
    hide EncodeItem, Merged;
    if |agents| == |items| {
      CheckLaw(markers, |items|);
      if Ordered(markers, |items|) { MergedLaw(items, agents, markers); }
    }
  }

  lemma {:induction false} CheckLaw(markers: seq<Boundary>, count: nat)
    ensures Check(markers, count).Ok? <==> MarkersFit(markers) && Ordered(markers, count)
  {
    if markers != [] {
      var before, last := markers[..|markers| - 1], markers[|markers| - 1];
      CheckLaw(before, count);
      assert markers == before + [last];
      OrderedMore(before, last, count);
      hide Ordered;
    }
  }

  lemma {:induction false} MergedLaw(
    items: seq<RunItem>, agents: seq<Option<AgentRef>>, markers: seq<Boundary>)
    requires |agents| == |items|
    requires Ordered(markers, |items|)
    ensures Merged(items, agents, markers).Ok? <==> ItemsEncode(items, agents) && MarkersFit(markers)
    ensures Merged(items, agents, markers).Ok? ==> |Merged(items, agents, markers).value| == |items| + |markers|
    decreases |items| + |markers|
  {
    hide EncodeItem, Merged, Ordered, MarkerWire, ItemsEncode, MarkersFit;
    MergedStep(items, agents, markers);
    if markers != [] && (items == [] || markers[|markers| - 1].beforeItem >= |items|) {
      var before, last := markers[..|markers| - 1], markers[|markers| - 1];
      assert markers == before + [last];
      FitMore(before, last, |items|);
      MergedLaw(items, agents, before);
      MarkerLaw(last.marker);
    } else if items != [] {
      var n := |items| - 1;
      Fewer(markers, n);
      EncodeMore(items, agents);
      MergedLaw(items[..n], agents[..n], markers);
    } else {
      NothingToEncode();
    }
  }

  lemma NothingToEncode()
    ensures ItemsEncode([], []) && MarkersFit([])
  {}

  lemma FitMore(before: seq<Boundary>, last: Boundary, count: nat)
    requires Ordered(before + [last], count)
    ensures Ordered(before, count)
    ensures MarkersFit(before + [last]) <==>
      MarkersFit(before) && last.marker.data.approved == (last.marker.phase == Approved)
  {
    OrderedMore(before, last, count);
  }

  lemma EncodeMore(items: seq<RunItem>, agents: seq<Option<AgentRef>>)
    requires |agents| == |items| > 0
    ensures var n := |items| - 1;
      ItemsEncode(items, agents) <==> ItemsEncode(items[..n], agents[..n]) && EncodeItem(items[n], agents[n]).Ok?
  {
    hide EncodeItem;
    var n := |items| - 1;
    assert forall i :: 0 <= i < n ==> items[i] == items[..n][i] && agents[i] == agents[..n][i];
  }

  lemma MergedStep(items: seq<RunItem>, agents: seq<Option<AgentRef>>, markers: seq<Boundary>)
    requires |agents| == |items|
    ensures var r := Merged(items, agents, markers);
      if markers != [] && (items == [] || markers[|markers| - 1].beforeItem >= |items|) then
        var (before, last) :=
          (Merged(items, agents, markers[..|markers| - 1]), MarkerWire(markers[|markers| - 1].marker));
        (r.Ok? <==> before.Ok? && last.Ok?) && (r.Ok? ==> |r.value| == |before.value| + 1)
      else if items != [] then
        var n := |items| - 1;
        var (before, last) := (Merged(items[..n], agents[..n], markers), EncodeItem(items[n], agents[n]));
        (r.Ok? <==> before.Ok? && last.Ok?) && (r.Ok? ==> |r.value| == |before.value| + 1)
      else r == Ok([])
  {
    hide EncodeItem, MarkerWire;
  }

  lemma Fewer(markers: seq<Boundary>, n: nat)
    requires Ordered(markers, n + 1) && (markers != [] ==> markers[|markers| - 1].beforeItem <= n)
    ensures Ordered(markers, n)
  {
    forall m | m in markers ensures m.beforeItem <= n {
      var i :| 0 <= i < |markers| && markers[i] == m;
      assert i < |markers| - 1 ==> markers[i].beforeItem <= markers[|markers| - 1].beforeItem;
    }
  }
}
