/**
 What a complete operation of the project store leaves on disk (engine.rs, recall.rs): the log a later
 replay reads and the cache, for any readable log and cache before it, and when it is refused.
 */
module DiskLaws {
  import opened Wrappers
  import opened Text
  import opened EventLogs
  import opened ProjectStates
  import opened MemoryHistory
  import opened ProjectDisk

  // After the repair and the plan the log reads as these events, and the cache is this one.
  ghost predicate Leaves(c: LogCodec, d: Disk, plan: seq<Write>, events: LogEvents, cache: Cache) {
    var x := AfterAll(c, d, [Repair] + plan);
    Recover(c, x.file) == Some((events, x.file)) && x.cache == cache
  }

  lemma AfterNothing(c: LogCodec, d: Disk)
    ensures AfterAll(c, d, []) == d
  {}

  lemma Repaired(c: LogCodec, d: Disk, plan: seq<Write>) returns (clean: Disk)
    requires ValidCodec(c) && Recover(c, d.file).Some?
    ensures Clean(c, clean.file, Recover(c, d.file).value.0) && clean.cache == d.cache
    ensures AfterAll(c, d, [Repair] + plan) == AfterAll(c, clean, plan)
  {
    hide Read, ValidCodec;
    RecoveryRepairs(c, d.file);
    clean := AfterWrite(c, d, Repair);
    PlanStep(c, d, Repair, plan, d);
  }

  lemma CleanLeaves(c: LogCodec, x: Disk, events: LogEvents)
    requires ValidCodec(c) && Clean(c, x.file, events)
    ensures Recover(c, x.file) == Some((events, x.file))
  {
    RecoverWhole(c, x.file, events);
  }

  // An operation that is refused changes neither the events nor the cache.
  lemma RefusalLaw(c: LogCodec, d: Disk)
    requires ValidCodec(c) && Recover(c, d.file).Some?
    ensures Leaves(c, d, [], Recover(c, d.file).value.0, d.cache)
  {
    hide Recover, Clean, ValidCodec;
    var clean := Repaired(c, d, []);
    AfterNothing(c, clean);
    CleanLeaves(c, clean, Recover(c, d.file).value.0);
  }

  // A mutation appends one event, the next in number, with what the caller decided on the state so far;
  // a deletion of a memory also takes its embedding.
  lemma MutateLaw(
    c: LogCodec, d: Disk, decide: State -> Result<Payload, ProjectStates.Error>, accept: Accept, stamp: Stamp,
    now: Time)
    requires ValidCodec(c) && Recover(c, d.file).Some? && Replay(Recover(c, d.file).value.0).Ok?
    ensures var events := Recover(c, d.file).value.0;
      var (s, plan) := (Replay(events).value, PlanMutate(events, decide, accept, stamp, now));
      if decide(s).Err? then plan == Err(decide(s).error)
      else
        var ev := ProjectStates.Event(s.lastSeq + 1, stamp.eventId, stamp.actor, decide(s).value);
        && (plan.Ok? <==>
          accept(ev).Ok? && Replay(events + [ev]).Ok? && !(ev.payload.MemoryDeleted? && !ev.payload.named))
        && (plan.Ok? ==> Leaves(c, d, plan.value, events + [ev],
          if ev.payload.MemoryDeleted? then d.cache - {ev.payload.id} else d.cache))
  {
    hide Replay, Apply, Relinked, Clean, ValidCodec, Recover, AfterAll;
    var events := Recover(c, d.file).value.0;
    var s := Replay(events).value;
    var plan := PlanMutate(events, decide, accept, stamp, now);
    if decide(s).Ok? {
      var ev := ProjectStates.Event(s.lastSeq + 1, stamp.eventId, stamp.actor, decide(s).value);
      IncrementalIsReplay(events, ev);
      if plan.Ok? {
        var t := Incremental(events, ev).value;
        MutationLeaves(c, d, events, ev, t.(project := t.project.(updatedAt := now)));
      }
    }
  }

  lemma MutationLeaves(c: LogCodec, d: Disk, events: LogEvents, ev: ProjectStates.Event, s: State)
    requires ValidCodec(c) && Recover(c, d.file).Some? && Recover(c, d.file).value.0 == events
    ensures Leaves(c, d, CacheDeletes(ev.payload) + [AppendRecord(ev), Snapshot(s)], events + [ev],
      if ev.payload.MemoryDeleted? then d.cache - {ev.payload.id} else d.cache)
  {
    hide Recover, Clean, ValidCodec, AfterAll;
    var tail := [AppendRecord(ev), Snapshot(s)];
    var clean := Repaired(c, d, CacheDeletes(ev.payload) + tail);
    CacheDeletesAre(ev.payload, tail);
    var ready := clean;
    if ev.payload.MemoryDeleted? {
      var drop := DeleteEmbeddings([ev.payload.id]);
      PlanStep(c, clean, drop, tail, clean);
      ready := AfterWrite(c, clean, drop);
      assert IdSet([ev.payload.id]) == {ev.payload.id};
    }
    assert tail == [AppendRecord(ev)] + [Snapshot(s)] && [Snapshot(s)] == [Snapshot(s)] + [];
    PlanStep(c, ready, AppendRecord(ev), [Snapshot(s)], ready);
    CleanAppend(c, ready.file, events, ev);
    var x := AfterWrite(c, ready, AppendRecord(ev));
    PlanStep(c, x, Snapshot(s), [], x);
    AfterNothing(c, x);
    CleanLeaves(c, x, events + [ev]);
  }

  // A purge leaves the events that name none of the memories, in their order, numbered from one.
  lemma PurgeLaw(c: LogCodec, d: Disk, ids: seq<string>, accept: Accept, stamp: Stamp)
    requires ValidCodec(c) && Recover(c, d.file).Some? && Replay(Recover(c, d.file).value.0).Ok?
    ensures var events := Recover(c, d.file).value.0;
      var plan := PlanPurge(events, ids, accept, stamp);
      && (plan.Ok? <==> accept(ProjectStates.Event(0, stamp.eventId, stamp.actor, Other("memory.purged"))).Ok?)
      && (plan.Ok? ==> Leaves(c, d, plan.value, Purge(events, ids), d.cache - (set id | id in ids)))
  {
    hide Replay, Clean, ValidCodec, Recover, AfterAll, Purge;
    var events := Recover(c, d.file).value.0;
    PurgePreservesMeaning(events, ids);
    var kept := Purge(events, ids);
    var s := Replay(kept).value;
    var plan := [DeleteEmbeddings(ids), ReplaceLog(kept), Snapshot(s)];
    var clean := Repaired(c, d, plan);
    assert plan == [DeleteEmbeddings(ids)] + ([ReplaceLog(kept)] + ([Snapshot(s)] + []));
    PlanStep(c, clean, DeleteEmbeddings(ids), [ReplaceLog(kept)] + ([Snapshot(s)] + []), clean);
    var x := AfterWrite(c, clean, DeleteEmbeddings(ids));
    PlanStep(c, x, ReplaceLog(kept), [Snapshot(s)] + [], x);
    var y := AfterWrite(c, x, ReplaceLog(kept));
    PlanStep(c, y, Snapshot(s), [], y);
    AfterNothing(c, y);
    CleanEncode(c, kept);
    CleanLeaves(c, y, kept);
  }

  lemma {:induction false} AppendsLeave(c: LogCodec, d: Disk, events: LogEvents, es: LogEvents, s: State)
    requires ValidCodec(c) && Clean(c, d.file, events)
    ensures var x := AfterAll(c, d, Appends(es) + [Snapshot(s)]);
      Recover(c, x.file) == Some((events + es, x.file)) && x.cache == d.cache
    decreases |es|
  {
    hide Recover, Clean, ValidCodec, AfterAll;
    if es == [] {
      assert Appends(es) + [Snapshot(s)] == [Snapshot(s)] + [] && events + es == events;
      PlanStep(c, d, Snapshot(s), [], d);
      AfterNothing(c, d);
      CleanLeaves(c, d, events);
    } else {
      var rest := Appends(es[1..]) + [Snapshot(s)];
      assert Appends(es) + [Snapshot(s)] == [AppendRecord(es[0])] + rest;
      PlanStep(c, d, AppendRecord(es[0]), rest, d);
      CleanAppend(c, d.file, events, es[0]);
      AppendsLeave(c, AfterWrite(c, d, AppendRecord(es[0])), events + [es[0]], es[1..], s);
      assert events + [es[0]] + es[1..] == events + es;
    }
  }

  // Without a purge of the history, a retention appends one deletion per memory it removes, numbered on,
  // if the write hook accepts all of them, and takes their embeddings.
  lemma DeletionsLaw(c: LogCodec, d: Disk, p: Policy, accept: Accept, stamps: nat -> Stamp)
    requires ValidCodec(c) && Recover(c, d.file).Some? && Replay(Recover(c, d.file).value.0).Ok? && !p.purgeHistory
    ensures var events := Recover(c, d.file).value.0;
      var (s, plan) := (Replay(events).value, PlanRetain(events, p, accept, stamps));
      var ids := Doomed(s.memories, p);
      var es := seq(|ids|, i requires 0 <= i < |ids| =>
        ProjectStates.Event(s.lastSeq + i + 1, stamps(i).eventId, stamps(i).actor, MemoryDeleted(ids[i], true)));
      && (plan.Ok? <==> forall e <- es :: accept(e).Ok?)
      && (plan.Ok? ==> Leaves(c, d, plan.value, events + es, d.cache - (set id | id in ids)))
  {
    hide Replay, Clean, ValidCodec, Recover, AfterAll, Doomed;
    var events := Recover(c, d.file).value.0;
    var s := Replay(events).value;
    var ids := Doomed(s.memories, p);
    var es := Deletions(ids, |ids|, s.lastSeq, stamps);
    DeletionsAre(ids, |ids|, s.lastSeq, stamps);
    assert es == seq(|ids|, i requires 0 <= i < |ids| =>
      ProjectStates.Event(s.lastSeq + i + 1, stamps(i).eventId, stamps(i).actor, MemoryDeleted(ids[i], true)));
    AcceptAllLaw(es, accept);
    var after := s.(memories := s.memories - IdSet(ids));
    var rest := Appends(es) + [Snapshot(after)];
    var clean := Repaired(c, d, [DeleteEmbeddings(ids)] + rest);
    assert [DeleteEmbeddings(ids)] + Appends(es) + [Snapshot(after)] == [DeleteEmbeddings(ids)] + rest;
    PlanStep(c, clean, DeleteEmbeddings(ids), rest, clean);
    AppendsLeave(c, AfterWrite(c, clean, DeleteEmbeddings(ids)), events, es, after);
  }

  lemma {:induction false} AcceptAllLaw(es: LogEvents, accept: Accept)
    ensures AcceptAll(es, accept).Ok? <==> forall e <- es :: accept(e).Ok?
  {
    if es != [] {
      var before, e := es[..|es| - 1], es[|es| - 1];
      assert es == before + [e];
      AcceptAllLaw(before, accept);
    }
  }

  // A refill stores of the given embeddings those of live memories, made by this model of the memory's
  // current content, with as many components as they say, at least one, and all of them finite.
  lemma RefillLaw(c: LogCodec, d: Disk, records: Cache, model: string, hash: string -> string)
    requires ValidCodec(c) && Recover(c, d.file).Some? && Replay(Recover(c, d.file).value.0).Ok?
    ensures var events := Recover(c, d.file).value.0;
      var (live, plan) := (Replay(events).value.memories, PlanRefill(events, records, model, hash));
      var stored := map id | id in records && id in live
        && records[id].model == model && records[id].hash == hash(live[id].content)
        && records[id].dims == |records[id].vector| > 0 && (forall x <- records[id].vector :: x.Finite?) :: records[id];
      plan.Ok? && Leaves(c, d, plan.value, events, d.cache + stored)
  {
    hide Replay, Clean, ValidCodec, Recover, AfterAll;
    var events := Recover(c, d.file).value.0;
    var live := Replay(events).value.memories;
    var put := StillFresh(records, live, model, hash);
    var clean := Repaired(c, d, [PutEmbeddings(put)]);
    assert [PutEmbeddings(put)] == [PutEmbeddings(put)] + [];
    PlanStep(c, clean, PutEmbeddings(put), [], clean);
    var x := AfterWrite(c, clean, PutEmbeddings(put));
    AfterNothing(c, x);
    CleanLeaves(c, x, events);
    assert put == map id | id in records && id in live
      && records[id].model == model && records[id].hash == hash(live[id].content)
      && records[id].dims == |records[id].vector| > 0 && (forall x <- records[id].vector :: x.Finite?) :: records[id];
  }

  // Opening gives an empty log its project, refuses another project's log and leaves any other log as
  // it is; of the cache it keeps what belongs to a live memory.
  lemma OpenLaw(c: LogCodec, d: Disk, projectId: string, workdir: string, now: Time, stamp: Stamp)
    requires ValidCodec(c) && Readable(c, d)
    ensures var events := Recover(c, d.file).value.0;
      var (s, plan) := (Replay(events).value, PlanOpen(events, d.cache, projectId, workdir, now, stamp));
      var kept := map id | id in d.cache && id in s.memories :: d.cache[id];
      var first := ProjectStates.Event(1, stamp.eventId, stamp.actor,
        ProjectInitialized(Project(1, projectId, workdir, now, now)));
      if events == [] then plan.Ok? && Leaves(c, d, plan.value, [first], kept)
      else if s.project.projectId != projectId then plan == Err(Invalid("state belongs to another project"))
      else plan.Ok? && Leaves(c, d, plan.value, events, kept)
  {
    hide Replay, Clean, ValidCodec, Recover, AfterAll, Apply, OrphanList;
    var events := Recover(c, d.file).value.0;
    var s := Replay(events).value;
    LastIsLength(events);
    var orphans := OrphanList(d.cache, s.memories);
    OrphanListIs(d.cache, s.memories);
    var kept := map id | id in d.cache && id in s.memories :: d.cache[id];
    assert d.cache - IdSet(orphans) == kept;
    var first := FirstEvent(projectId, workdir, now, stamp);
    if events == [] {
      FirstReplay(projectId, workdir, now, stamp);
      FirstApplies(s, projectId, workdir, now, stamp);
      var t := Apply(s, first).value.(lastSeq := 1);
      var rest := Dropped(orphans) + [Snapshot(t)];
      assert [AppendRecord(first)] + Dropped(orphans) + [Snapshot(t)] == [AppendRecord(first)] + rest;
      var clean := Repaired(c, d, [AppendRecord(first)] + rest);
      PlanStep(c, clean, AppendRecord(first), rest, clean);
      CleanAppend(c, clean.file, [], first);
      assert [] + [first] == [first];
      DropLeaves(c, AfterWrite(c, clean, AppendRecord(first)), [first], orphans, t);
    } else if s.project.projectId == projectId {
      var clean := Repaired(c, d, Dropped(orphans) + [Snapshot(s)]);
      DropLeaves(c, clean, events, orphans, s);
    }
  }

  lemma LastIsLength(events: LogEvents)
    requires Replay(events).Ok? && Numbered(events)
    ensures Replay(events).value.lastSeq == |events|
  {
    LastSeqIsLength(events);
  }

  lemma FirstApplies(s: State, projectId: string, workdir: string, now: Time, stamp: Stamp)
    ensures Apply(s, FirstEvent(projectId, workdir, now, stamp)).Ok?
  {}

  lemma DropLeaves(c: LogCodec, d: Disk, events: LogEvents, orphans: seq<string>, s: State)
    requires ValidCodec(c) && Clean(c, d.file, events)
    ensures var x := AfterAll(c, d, Dropped(orphans) + [Snapshot(s)]);
      Recover(c, x.file) == Some((events, x.file)) && x.cache == d.cache - IdSet(orphans)
  {
    hide Recover, Clean, ValidCodec, AfterAll;
    var x := d;
    if orphans == [] {
      assert Dropped(orphans) + [Snapshot(s)] == [Snapshot(s)] + [] && IdSet(orphans) == {};
    } else {
      assert Dropped(orphans) + [Snapshot(s)] == [DeleteEmbeddings(orphans)] + ([Snapshot(s)] + []);
      PlanStep(c, d, DeleteEmbeddings(orphans), [Snapshot(s)] + [], d);
      x := AfterWrite(c, d, DeleteEmbeddings(orphans));
    }
    PlanStep(c, x, Snapshot(s), [], x);
    AfterNothing(c, x);
    CleanLeaves(c, x, events);
  }
}
