/**
 The project store on disk (engine.rs, recall.rs): a byte log and an embedding cache. Every
 operation is a list of single writes; a crash may fall inside any of them.
 */
module ProjectDisk {
  import opened Wrappers
  import opened EventLogs
  import opened ProjectStates
  import opened MemoryHistory
  import opened Ordering
  import opened Text

  type LogCodec = Codec<ProjectStates.Event>
  type LogEvents = seq<ProjectStates.Event>

  // A vector component is a finite float or not; its bits do not matter here.
  datatype Component = Finite(bits: nat) | NotFinite
  datatype Embedding = Embedding(hash: string, model: string, dims: nat, vector: seq<Component>)
  type Cache = map<string, Embedding>

  datatype Disk = Disk(file: Bytes, cache: Cache)

  datatype Write =
    | Repair                                  // events(): truncate a torn tail, end the last line
    | AppendRecord(event: ProjectStates.Event)
    | ReplaceLog(events: LogEvents)
    | PutEmbeddings(records: Cache)
    | DeleteEmbeddings(ids: seq<string>)
    | Snapshot(state: State)                  // index files that no reading of the store looks at

  function Minus(c: Cache, ids: seq<string>): Cache {
    c - IdSet(ids)
  }

  function AfterWrite(c: LogCodec, d: Disk, w: Write): Disk {
    match w
    case Repair => if Recover(c, d.file).Some? then d.(file := Recover(c, d.file).value.1) else d
    case AppendRecord(e) => d.(file := d.file + Record(c, e))
    case ReplaceLog(es) => d.(file := Encode(c, es))
    case PutEmbeddings(rs) => d.(cache := d.cache + rs)
    case DeleteEmbeddings(ids) => d.(cache := Minus(d.cache, ids))
    case Snapshot(_) => d
  }

  function AfterAll(c: LogCodec, d: Disk, plan: seq<Write>): Disk
    decreases |plan|
  {
    if plan == [] then d else AfterAll(c, AfterWrite(c, d, plan[0]), plan[1..])
  }

  // What a crash during a write may leave: file replacements are atomic renames, an append may stop
  // after any byte, and a repair between its truncation and its newline.
  ghost predicate MayLeave(c: LogCodec, d: Disk, w: Write, x: Disk) {
    || x == d || x == AfterWrite(c, d, w)
    || (w.Repair? && Recover(c, d.file).Some? && x == d.(file := d.file[..Read(c, d.file).value.valid]))
    || (w.AppendRecord?
      && exists n :: 0 <= n <= |Record(c, w.event)| && x == d.(file := d.file + Record(c, w.event)[..n]))
  }

  // The log can be read, replays and is numbered from one.
  ghost predicate Readable(c: LogCodec, d: Disk) {
    var r := Recover(c, d.file);
    r.Some? && Replay(r.value.0).Ok? && Numbered(r.value.0)
  }

  // And no cached embedding outlives its memory.
  ghost predicate Sound(c: LogCodec, d: Disk) {
    Readable(c, d) && d.cache.Keys <= Live(c, d).Keys
  }

  // The memories the recovered log replays to.
  function Live(c: LogCodec, d: Disk): map<string, Memory>
    requires Recover(c, d.file).Some? && Replay(Recover(c, d.file).value.0).Ok?
  {
    Replay(Recover(c, d.file).value.0).value.memories
  }

  // Every disk that can be observed while a plan runs: left by a crash in one of its writes, or its end.
  ghost predicate MayReach(c: LogCodec, d: Disk, plan: seq<Write>, x: Disk)
    decreases |plan|
  {
    if plan == [] then x == d
    else MayLeave(c, d, plan[0], x) || MayReach(c, AfterWrite(c, d, plan[0]), plan[1..], x)
  }

  // A disk whose log is clean and holds these events.
  ghost predicate Holding(c: LogCodec, d: Disk, events: LogEvents) {
    Clean(c, d.file, events) && Replay(events).Ok? && Numbered(events)
  }

  ghost predicate Covered(d: Disk, events: LogEvents)
    requires Replay(events).Ok?
  {
    d.cache.Keys <= Replay(events).value.memories.Keys
  }

  lemma HoldingIs(c: LogCodec, d: Disk, events: LogEvents)
    requires Holding(c, d, events)
    ensures Recover(c, d.file) == Some((events, d.file)) && Readable(c, d)
    ensures Sound(c, d) <==> Covered(d, events)
  {
    hide Read, Replay;
    RecoverWhole(c, d.file, events);
  }

  // The first write of every operation.
  lemma RepairIsSafe(c: LogCodec, d: Disk, x: Disk)
    requires ValidCodec(c) && Readable(c, d) && MayLeave(c, d, Repair, x)
    ensures Readable(c, x) && x.cache == d.cache && Live(c, x) == Live(c, d)
    ensures Recover(c, x.file) == Recover(c, d.file)
  {
    hide Read, Replay, ValidCodec;
    RecoveryRepairs(c, d.file);
    RecoverySurvivesCrash(c, d.file);
  }

  lemma RepairHolds(c: LogCodec, d: Disk)
    requires ValidCodec(c) && Readable(c, d)
    ensures Holding(c, AfterWrite(c, d, Repair), Recover(c, d.file).value.0)
  {
    hide Read, Replay, ValidCodec;
    RecoveryRepairs(c, d.file);
  }

  // Appending: at every byte the log holds the old or the new events.
  lemma AppendIsSafe(c: LogCodec, d: Disk, events: LogEvents, e: ProjectStates.Event, x: Disk)
    requires ValidCodec(c) && Holding(c, d, events)
    requires Replay(events + [e]).Ok? && Numbered(events + [e])
    requires MayLeave(c, d, AppendRecord(e), x)
    ensures Readable(c, x) && x.cache == d.cache
    ensures Recover(c, x.file).value.0 == events || Recover(c, x.file).value.0 == events + [e]
  {
    hide Read, Replay, ValidCodec, Numbered;
    if x == d {
      RecoverWhole(c, d.file, events);
    } else {
      var rec := Record(c, e);
      assert rec[..|rec|] == rec;
      var n :| 0 <= n <= |rec| && x == d.(file := d.file + rec[..n]);
      AppendIsCrashAtomic(c, d.file, events, e, n);
    }
  }

  lemma AppendHolds(c: LogCodec, d: Disk, events: LogEvents, e: ProjectStates.Event)
    requires ValidCodec(c) && Holding(c, d, events)
    requires Replay(events + [e]).Ok? && Numbered(events + [e])
    ensures Holding(c, AfterWrite(c, d, AppendRecord(e)), events + [e])
  {
    hide Read, Replay, ValidCodec;
    CleanAppend(c, d.file, events, e);
  }

  function Appends(es: LogEvents): seq<Write> {
    if es == [] then [] else [AppendRecord(es[0])] + Appends(es[1..])
  }

  // A run of appends and the snapshot that ends it, when each longer log covers the cache.
  lemma {:induction false} AppendsAreSafe(c: LogCodec, d: Disk, events: LogEvents, es: LogEvents, s: State, x: Disk)
    requires ValidCodec(c) && Holding(c, d, events)
    requires forall i :: 0 <= i <= |es| ==> Replay(events + es[..i]).Ok? && Covered(d, events + es[..i])
    requires Numbered(events + es)
    requires MayReach(c, d, Appends(es) + [Snapshot(s)], x)
    ensures Sound(c, x)
    decreases |es|
  {
    hide Read, Replay, ValidCodec, Covered, Recover;
    assert events + es[..0] == events;
    HoldingIs(c, d, events);
    if es == [] {
      assert Appends(es) + [Snapshot(s)] == [Snapshot(s)];
    } else {
      var e := es[0];
      var plan := Appends(es) + [Snapshot(s)];
      assert plan[0] == AppendRecord(e) && plan[1..] == Appends(es[1..]) + [Snapshot(s)];
      assert events + es[..1] == events + [e];
      NumberedPrefix(events, es);
      if MayLeave(c, d, plan[0], x) {
        AppendIsSafe(c, d, events, e, x);
        SoundFromCover(c, x, d, events, e);
      } else {
        var next := AfterWrite(c, d, plan[0]);
        AppendHolds(c, d, events, e);
        forall i | 0 <= i <= |es[1..]|
          ensures Replay(events + [e] + es[1..][..i]).Ok? && Covered(next, events + [e] + es[1..][..i])
        {
          assert events + [e] + es[1..][..i] == events + es[..i + 1];
          SameCover(d, next, events + es[..i + 1]);
        }
        assert events + [e] + es[1..] == events + es;
        AppendsAreSafe(c, next, events + [e], es[1..], s, x);
      }
    }
  }

  lemma SameCover(d: Disk, x: Disk, events: LogEvents)
    requires Replay(events).Ok? && Covered(d, events) && x.cache == d.cache
    ensures Covered(x, events)
  {}

  lemma NumberedPrefix(events: LogEvents, es: LogEvents)
    requires es != [] && Numbered(events + es)
    ensures Numbered(events + [es[0]])
  {
    forall i | 0 <= i < |events + [es[0]]| ensures (events + [es[0]])[i].seqNo == i + 1 {
      assert (events + [es[0]])[i] == (events + es)[i];
    }
  }

  lemma SoundFromCover(c: LogCodec, x: Disk, d: Disk, events: LogEvents, e: ProjectStates.Event)
    requires Readable(c, x) && x.cache == d.cache
    requires Replay(events).Ok? && Replay(events + [e]).Ok? && Covered(d, events) && Covered(d, events + [e])
    requires Recover(c, x.file).value.0 == events || Recover(c, x.file).value.0 == events + [e]
    ensures Sound(c, x)
  {}

  // The plan proper of every operation starts from a repaired log; the repair itself is its first write.
  lemma AfterRepair(c: LogCodec, d: Disk, plan: seq<Write>, x: Disk) returns (clean: Disk)
    requires ValidCodec(c) && Sound(c, d) && MayReach(c, d, [Repair] + plan, x)
    ensures clean == AfterWrite(c, d, Repair) && clean.cache == d.cache
    ensures var events := Recover(c, d.file).value.0;
      Holding(c, clean, events) && Covered(clean, events) && (Sound(c, x) || MayReach(c, clean, plan, x))
  {
    clean := AfterWrite(c, d, Repair);
    RepairHolds(c, d);
    assert ([Repair] + plan)[1..] == plan;
    if MayLeave(c, d, Repair, x) {
      RepairIsSafe(c, d, x);
    }
    hide Read, Replay, ValidCodec, MayReach;
    RepairIsSafe(c, d, clean);
  }

  // Dropping cache entries is always safe.
  lemma DeleteIsSafe(c: LogCodec, d: Disk, events: LogEvents, ids: seq<string>, plan: seq<Write>, x: Disk)
    returns (next: Disk)
    requires Holding(c, d, events) && Covered(d, events)
    requires MayReach(c, d, [DeleteEmbeddings(ids)] + plan, x)
    ensures next == d.(cache := Minus(d.cache, ids)) && Holding(c, next, events) && Covered(next, events)
    ensures Sound(c, x) || MayReach(c, next, plan, x)
  {
    next := d.(cache := Minus(d.cache, ids));
    assert ([DeleteEmbeddings(ids)] + plan)[1..] == plan;
    HoldingIs(c, d, events);
    HoldingIs(c, next, events);
  }

  // ---- mutate

  datatype Stamp = Stamp(eventId: string, actor: string)

  // The event a mutation appends, decided on the replayed state and accepted by the write hook.
  function Decided(
    s: State, decide: State -> Result<Payload, ProjectStates.Error>,
    accept: ProjectStates.Event -> Result<(), ProjectStates.Error>, stamp: Stamp)
    : Result<ProjectStates.Event, ProjectStates.Error>
  {
    var payload :- decide(s);
    var ev := ProjectStates.Event(s.lastSeq + 1, stamp.eventId, stamp.actor, payload);
    var _ :- accept(ev);
    var _ :- Apply(s, ev);
    if payload.MemoryDeleted? && !payload.named then Err(Json) else Ok(ev)
  }

  function CacheDeletes(p: Payload): seq<Write> {
    if p.MemoryDeleted? then [DeleteEmbeddings([p.id])] else []
  }

  function PlanMutate(
    events: LogEvents, decide: State -> Result<Payload, ProjectStates.Error>,
    accept: ProjectStates.Event -> Result<(), ProjectStates.Error>, stamp: Stamp, now: Time)
    : Result<seq<Write>, ProjectStates.Error>
  {
    var s :- Replay(events);
    var ev :- Decided(s, decide, accept, stamp);
    var t :- Incremental(events, ev);
    Ok(CacheDeletes(ev.payload) + [AppendRecord(ev), Snapshot(t.(project := t.project.(updatedAt := now)))])
  }

  lemma ReplayMemories(events: LogEvents, ev: ProjectStates.Event)
    requires Replay(events).Ok? && Replay(events + [ev]).Ok?
    ensures Replay(events + [ev]).value.memories == MemoryEffect(Replay(events).value.memories, ev)
  {
    hide Apply, Relinked, MemoryEffect;
    FoldStep(events, ev);
    ApplyMemories(Fold(events).value, ev);
  }

  lemma NextNumber(events: LogEvents, ev: ProjectStates.Event)
    requires Replay(events).Ok? && Numbered(events) && ev.seqNo == Replay(events).value.lastSeq + 1
    ensures ev.seqNo == |events| + 1 && Numbered(events + [ev])
  {
    LastSeqIsLength(events);
  }

  // An event that deletes no cached memory leaves the cache covered.
  lemma CoveredAfter(d: Disk, events: LogEvents, ev: ProjectStates.Event)
    requires Replay(events).Ok? && Replay(events + [ev]).Ok? && Covered(d, events)
    requires ev.payload.MemoryDeleted? ==> Key(ev.payload.id, ev.payload.named) !in d.cache
    ensures Covered(d, events + [ev])
  {
    hide Replay;
    ReplayMemories(events, ev);
  }

  lemma OneAppendIsSafe(c: LogCodec, d: Disk, events: LogEvents, ev: ProjectStates.Event, s: State, x: Disk)
    requires ValidCodec(c) && Holding(c, d, events) && Covered(d, events)
    requires ev.seqNo == Replay(events).value.lastSeq + 1 && Replay(events + [ev]).Ok?
    requires ev.payload.MemoryDeleted? ==> Key(ev.payload.id, ev.payload.named) !in d.cache
    requires MayReach(c, d, [AppendRecord(ev), Snapshot(s)], x)
    ensures Sound(c, x)
  {
    hide Read, Replay, ValidCodec, MayReach, MayLeave, Clean;
    NextNumber(events, ev);
    CoveredAfter(d, events, ev);
    assert [ev][..0] == [] && [ev][..1] == [ev] && events + [] == events && [ev][1..] == [];
    assert Appends([ev]) == [AppendRecord(ev)];
    assert [AppendRecord(ev)] + [Snapshot(s)] == [AppendRecord(ev), Snapshot(s)];
    AppendsAreSafe(c, d, events, [ev], s, x);
  }

  // What a successful mutation plan consists of.
  lemma MutatePlanIs(
    events: LogEvents, decide: State -> Result<Payload, ProjectStates.Error>,
    accept: ProjectStates.Event -> Result<(), ProjectStates.Error>, stamp: Stamp, now: Time)
    returns (ev: ProjectStates.Event, state: State)
    requires PlanMutate(events, decide, accept, stamp, now).Ok?
    ensures Replay(events).Ok? && Decided(Replay(events).value, decide, accept, stamp) == Ok(ev)
    ensures PlanMutate(events, decide, accept, stamp, now).value ==
      CacheDeletes(ev.payload) + [AppendRecord(ev), Snapshot(state)]
    ensures ev.seqNo == Replay(events).value.lastSeq + 1
    ensures ev.payload.MemoryDeleted? ==> ev.payload.named
    ensures Replay(events + [ev]).Ok?
    ensures var t := Replay(events + [ev]).value;
      && state.tasks == t.tasks && state.memories == t.memories && state.sessions == t.sessions
      && state.project == t.project.(updatedAt := now)
  {
    hide Replay, Apply, Relinked;
    ev := Decided(Replay(events).value, decide, accept, stamp).value;
    var t := Incremental(events, ev).value;
    state := t.(project := t.project.(updatedAt := now));
    IncrementalIsReplay(events, ev);
  }

  // A mutation is crash-safe.
  lemma MutateIsSafe(
    c: LogCodec, d: Disk, decide: State -> Result<Payload, ProjectStates.Error>,
    accept: ProjectStates.Event -> Result<(), ProjectStates.Error>, stamp: Stamp, now: Time, x: Disk)
    requires ValidCodec(c) && Sound(c, d)
    requires var r := PlanMutate(Recover(c, d.file).value.0, decide, accept, stamp, now);
      r.Ok? && MayReach(c, d, [Repair] + r.value, x)
    ensures Sound(c, x)
  {
    hide *;
    SoundIsReadable(c, d);
    var events := Recover(c, d.file).value.0;
    var ev, state := MutatePlanIs(events, decide, accept, stamp, now);
    var tail := [AppendRecord(ev), Snapshot(state)];
    var clean := AfterRepair(c, d, CacheDeletes(ev.payload) + tail, x);
    if !Sound(c, x) {
      CacheDeletesAre(ev.payload, tail);
      if ev.payload.MemoryDeleted? {
        var next := DeleteIsSafe(c, clean, events, [ev.payload.id], tail, x);
        if !Sound(c, x) {
          NamedKey(clean.cache, ev.payload);
          OneAppendIsSafe(c, next, events, ev, state, x);
        }
      } else {
        OneAppendIsSafe(c, clean, events, ev, state, x);
      }
    }
  }

  lemma SoundIsReadable(c: LogCodec, d: Disk)
    requires Sound(c, d)
    ensures Recover(c, d.file).Some?
  {}

  lemma CacheDeletesAre(p: Payload, tail: seq<Write>)
    ensures CacheDeletes(p) + tail == if p.MemoryDeleted? then [DeleteEmbeddings([p.id])] + tail else tail
  {}

  lemma NamedKey(cache: Cache, p: Payload)
    requires p.MemoryDeleted? && p.named
    ensures Key(p.id, p.named) !in Minus(cache, [p.id])
  {}

  // ---- purge

  function PlanPurge(
    events: LogEvents, ids: seq<string>, accept: ProjectStates.Event -> Result<(), ProjectStates.Error>, stamp: Stamp)
    : Result<seq<Write>, ProjectStates.Error>
  {
    var _ :- accept(ProjectStates.Event(0, stamp.eventId, stamp.actor, Other("memory.purged")));
    var s :- Replay(Purge(events, ids));
    Ok([DeleteEmbeddings(ids), ReplaceLog(Purge(events, ids)), Snapshot(s)])
  }

  lemma PurgeIsSafe(
    c: LogCodec, d: Disk, ids: seq<string>, accept: ProjectStates.Event -> Result<(), ProjectStates.Error>,
    stamp: Stamp, x: Disk)
    requires ValidCodec(c) && Sound(c, d)
    requires var r := PlanPurge(Recover(c, d.file).value.0, ids, accept, stamp);
      r.Ok? && MayReach(c, d, [Repair] + r.value, x)
    ensures Sound(c, x)
  {
    hide Read, Replay, ValidCodec, MayReach, MayLeave, Purge, Numbered, Clean;
    var events := Recover(c, d.file).value.0;
    var kept := Purge(events, ids);
    var s := Replay(kept).value;
    var tail := [ReplaceLog(kept), Snapshot(s)];
    assert PlanPurge(events, ids, accept, stamp).value == [DeleteEmbeddings(ids)] + tail;
    var clean := AfterRepair(c, d, [DeleteEmbeddings(ids)] + tail, x);
    if !Sound(c, x) {
      var next := DeleteIsSafe(c, clean, events, ids, tail, x);
      if !Sound(c, x) {
        PurgePreservesMeaning(events, ids);
        PurgeCovers(next, events, kept, ids);
        ReplaceIsSafe(c, next, events, kept, s, x);
      }
    }
  }

  lemma PurgeCovers(d: Disk, events: LogEvents, kept: LogEvents, ids: seq<string>)
    requires Replay(events).Ok? && Replay(kept).Ok? && Covered(d, events)
    requires exists u :: Erased(Replay(events).value, Replay(kept).value, ids, u)
    requires forall id :: id in ids ==> id !in d.cache
    ensures Covered(d, kept)
  {}

  lemma ReplaceIsSafe(c: LogCodec, d: Disk, events: LogEvents, kept: LogEvents, s: State, x: Disk)
    requires ValidCodec(c) && Holding(c, d, events) && Covered(d, events)
    requires Replay(kept).Ok? && Numbered(kept) && Covered(d, kept)
    requires MayReach(c, d, [ReplaceLog(kept), Snapshot(s)], x)
    ensures Sound(c, x)
  {
    hide Read, Replay, ValidCodec, Numbered;
    var next := d.(file := Encode(c, kept));
    CleanEncode(c, kept);
    HoldingIs(c, d, events);
    HoldingIs(c, next, kept);
    assert [ReplaceLog(kept), Snapshot(s)][1..] == [Snapshot(s)] && [Snapshot(s)][1..] == [];
    SnapshotReaches(c, next, s, x);
  }

  lemma SnapshotReaches(c: LogCodec, d: Disk, s: State, x: Disk)
    ensures MayReach(c, d, [Snapshot(s)], x) <==> x == d
  {
    assert [Snapshot(s)][1..] == [];
  }

  // ---- retention

  function Deletion(seqNo: int, id: string, stamp: Stamp): ProjectStates.Event {
    ProjectStates.Event(seqNo, stamp.eventId, stamp.actor, MemoryDeleted(id, true))
  }

  // The deletion events of the first n IDs, numbered on from the log's last.
  function Deletions(ids: seq<string>, n: nat, last: int, stamps: nat -> Stamp): LogEvents
    requires n <= |ids|
  {
    if n == 0 then [] else Deletions(ids, n - 1, last, stamps) + [Deletion(last + n, ids[n - 1], stamps(n - 1))]
  }

  // The first refusal of the write hook, if any.
  function AcceptAll(es: LogEvents, accept: ProjectStates.Event -> Result<(), ProjectStates.Error>)
    : Result<(), ProjectStates.Error>
  {
    if es == [] then Ok(())
    else
      var _ :- AcceptAll(es[..|es| - 1], accept);
      accept(es[|es| - 1])
  }

  function PlanRetain(
    events: LogEvents, p: Policy, accept: ProjectStates.Event -> Result<(), ProjectStates.Error>, stamps: nat -> Stamp)
    : Result<seq<Write>, ProjectStates.Error>
  {
    var s :- Replay(events);
    var ids := Doomed(s.memories, p);
    if p.purgeHistory then PlanPurge(events, ids, accept, stamps(0)) else PlanDeletions(s, ids, accept, stamps)
  }

  function PlanDeletions(s: State, ids: seq<string>, accept: Accept, stamps: nat -> Stamp)
    : Result<seq<Write>, ProjectStates.Error>
  {
    var es := Deletions(ids, |ids|, s.lastSeq, stamps);
    var _ :- AcceptAll(es, accept);
    Ok([DeleteEmbeddings(ids)] + Appends(es) + [Snapshot(s.(memories := s.memories - IdSet(ids)))])
  }

  lemma {:induction false} DeletionsAre(ids: seq<string>, n: nat, last: int, stamps: nat -> Stamp)
    requires n <= |ids|
    ensures |Deletions(ids, n, last, stamps)| == n
    ensures forall i :: 0 <= i < n ==> Deletions(ids, n, last, stamps)[i] == Deletion(last + i + 1, ids[i], stamps(i))
  {
    if n > 0 {
      DeletionsAre(ids, n - 1, last, stamps);
    }
  }

  lemma {:induction false} DeletionsPrefix(ids: seq<string>, n: nat, last: int, stamps: nat -> Stamp)
    requires n <= |ids|
    ensures n <= |Deletions(ids, |ids|, last, stamps)|
    ensures Deletions(ids, |ids|, last, stamps)[..n] == Deletions(ids, n, last, stamps)
  {
    DeletionsAre(ids, n, last, stamps);
    DeletionsAre(ids, |ids|, last, stamps);
  }

  lemma DeletionApplies(s: State, e: ProjectStates.Event)
    requires e.payload.MemoryDeleted? && e.payload.named
    ensures Apply(s, e) == Ok(s.(memories := s.memories - {e.payload.id}))
  {}

  lemma RelinkedOnly(s: State, m: map<string, Memory>, n: int)
    ensures RecomputeBlocks(s.(memories := m, lastSeq := n)) == RecomputeBlocks(s).(memories := m, lastSeq := n)
  {}

  lemma DropOneMore(m: map<string, Memory>, ids: seq<string>, n: nat)
    requires 0 < n <= |ids|
    ensures (m - IdSet(ids[..n - 1])) - {ids[n - 1]} == m - IdSet(ids[..n])
  {
    assert ids[..n] == ids[..n - 1] + [ids[n - 1]];
    assert IdSet(ids[..n]) == IdSet(ids[..n - 1]) + {ids[n - 1]};
  }

  // After n deletions the replay differs from the original only in the memories gone.
  lemma {:induction false} ReplayDeletions(events: LogEvents, ids: seq<string>, n: nat, stamps: nat -> Stamp)
    requires Replay(events).Ok? && n <= |ids|
    ensures var es := Deletions(ids, n, Replay(events).value.lastSeq, stamps);
      Replay(events + es).Ok? &&
      var (s, t) := (Replay(events).value, Replay(events + es).value);
      t == s.(memories := s.memories - IdSet(ids[..n]), lastSeq := s.lastSeq + n)
  {
    hide Apply, RecomputeBlocks;
    var last := Replay(events).value.lastSeq;
    var es := Deletions(ids, n, last, stamps);
    var f := Fold(events).value;
    RelinkedOnly(f, f.memories, f.lastSeq);
    assert f.(memories := f.memories, lastSeq := f.lastSeq) == f;
    if n == 0 {
      assert events + es == events;
      assert ids[..0] == [] && Replay(events).value.memories - IdSet(ids[..0]) == Replay(events).value.memories;
    } else {
      ReplayDeletions(events, ids, n - 1, stamps);
      var before := events + Deletions(ids, n - 1, last, stamps);
      var e := Deletion(last + n, ids[n - 1], stamps(n - 1));
      assert events + es == before + [e];
      FoldStep(before, e);
      var g := Fold(before).value;
      DeletionApplies(g, e);
      RelinkedOnly(g, g.memories, g.lastSeq);
      assert g.(memories := g.memories, lastSeq := g.lastSeq) == g;
      RelinkedOnly(g, g.memories - {ids[n - 1]}, Max(g.lastSeq, last + n));
      DropOneMore(Replay(events).value.memories, ids, n);
    }
  }

  lemma DeletionsNumbered(events: LogEvents, ids: seq<string>, stamps: nat -> Stamp)
    requires Replay(events).Ok? && Numbered(events)
    ensures Numbered(events + Deletions(ids, |ids|, Replay(events).value.lastSeq, stamps))
  {
    LastSeqIsLength(events);
    DeletionsAre(ids, |ids|, Replay(events).value.lastSeq, stamps);
  }

  lemma FewerMemoriesCover(d: Disk, m: map<string, Memory>, all: seq<string>, n: nat)
    requires n <= |all| && d.cache.Keys <= m.Keys && d.cache.Keys !! IdSet(all)
    ensures d.cache.Keys <= (m - IdSet(all[..n])).Keys
  {
    forall id | id in d.cache ensures id in m - IdSet(all[..n]) {
      assert id !in all by {
        assert id in all ==> id in IdSet(all);
      }
    }
  }

  // Retention is crash-safe: the cache entries go first, then one deletion event after another.
  lemma RetainIsSafe(
    c: LogCodec, d: Disk, p: Policy, accept: ProjectStates.Event -> Result<(), ProjectStates.Error>,
    stamps: nat -> Stamp, x: Disk)
    requires ValidCodec(c) && Sound(c, d)
    requires var r := PlanRetain(Recover(c, d.file).value.0, p, accept, stamps);
      r.Ok? && MayReach(c, d, [Repair] + r.value, x)
    ensures Sound(c, x)
  {
    hide Read, Replay, ValidCodec, MayReach, MayLeave, Numbered, Clean, Doomed;
    var events := Recover(c, d.file).value.0;
    var s := Replay(events).value;
    var ids := Doomed(s.memories, p);
    if p.purgeHistory {
      PurgeIsSafe(c, d, ids, accept, stamps(0), x);
    } else {
      var es := Deletions(ids, |ids|, s.lastSeq, stamps);
      var end := s.(memories := s.memories - IdSet(ids));
      var tail := Appends(es) + [Snapshot(end)];
      assert PlanRetain(events, p, accept, stamps).value == [DeleteEmbeddings(ids)] + tail;
      var clean := AfterRepair(c, d, [DeleteEmbeddings(ids)] + tail, x);
      if !Sound(c, x) {
        var next := DeleteIsSafe(c, clean, events, ids, tail, x);
        if !Sound(c, x) {
          DeletionsNumbered(events, ids, stamps);
          forall i | 0 <= i <= |es| ensures Replay(events + es[..i]).Ok? && Covered(next, events + es[..i]) {
            DeletionsCover(next, events, ids, stamps, es, i);
          }
          AppendsAreSafe(c, next, events, es, end, x);
        }
      }
    }
  }

  lemma DeletionsCover(
    d: Disk, events: LogEvents, ids: seq<string>, stamps: nat -> Stamp, es: LogEvents, i: nat)
    requires Replay(events).Ok? && Covered(d, events)
    requires forall id :: id in ids ==> id !in d.cache
    requires es == Deletions(ids, |ids|, Replay(events).value.lastSeq, stamps) && i <= |es|
    ensures Replay(events + es[..i]).Ok? && Covered(d, events + es[..i])
  {
    hide Replay, Deletions;
    var last := Replay(events).value.lastSeq;
    DeletionsAre(ids, |ids|, last, stamps);
    DeletionsPrefix(ids, i, last, stamps);
    ReplayDeletions(events, ids, i, stamps);
    FewerMemoriesCover(d, Replay(events).value.memories, ids, i);
  }

  // Either way retention leaves the same project, tasks and sessions and the same live memories,
  // namely those not doomed; with the history purged, unless a doomed memory was never named.
  lemma RetentionLeaves(events: LogEvents, p: Policy, stamps: nat -> Stamp)
    requires Replay(events).Ok?
    ensures var s := Replay(events).value;
      var ids := Doomed(s.memories, p);
      var appended := Replay(events + Deletions(ids, |ids|, s.lastSeq, stamps));
      var purged := Replay(Purge(events, ids));
      && appended.Ok? && purged.Ok?
      && appended.value.memories == s.memories - IdSet(ids)
      && appended.value.project == purged.value.project == s.project
      && appended.value.tasks == purged.value.tasks == s.tasks
      && appended.value.sessions == purged.value.sessions == s.sessions
      && (purged.value.memories == appended.value.memories <==> !("" in ids && UnnamedLive(events)))
  {
    hide Replay, Purge, Doomed, Deletions;
    var ids := Doomed(Replay(events).value.memories, p);
    ReplayDeletions(events, ids, |ids|, stamps);
    assert ids[..|ids|] == ids;
    PurgePreservesMeaning(events, ids);
    PurgeErasesExactly(events, ids);
  }

  // ---- cache refill

  predicate ValidVector(v: seq<Component>) {
    v != [] && forall i :: 0 <= i < |v| ==> v[i].Finite?
  }

  predicate Fresh(r: Embedding, m: Memory, model: string, hash: string -> string) {
    r.model == model && r.hash == hash(m.content) && r.dims == |r.vector| && ValidVector(r.vector)
  }

  // Only what is still fresh for a memory alive in the log being written beside.
  function StillFresh(records: Cache, m: map<string, Memory>, model: string, hash: string -> string): Cache {
    map id | id in records && id in m && Fresh(records[id], m[id], model, hash) :: records[id]
  }

  function PlanRefill(events: LogEvents, records: Cache, model: string, hash: string -> string)
    : Result<seq<Write>, ProjectStates.Error>
  {
    var s :- Replay(events);
    Ok([PutEmbeddings(StillFresh(records, s.memories, model, hash))])
  }

  // A refill is crash-safe whatever ran since the records were computed, and the entries it leaves
  // for the memories it was given are fresh for their current content or were there before.
  lemma RefillIsSafe(c: LogCodec, d: Disk, records: Cache, model: string, hash: string -> string, x: Disk)
    requires ValidCodec(c) && Sound(c, d)
    requires var r := PlanRefill(Recover(c, d.file).value.0, records, model, hash);
      r.Ok? && MayReach(c, d, [Repair] + r.value, x)
    ensures Sound(c, x) && Live(c, x) == Live(c, d)
    ensures forall id :: id in x.cache ==>
      (id in d.cache && x.cache[id] == d.cache[id])
      || (id in records && x.cache[id] == records[id] && Fresh(records[id], Live(c, x)[id], model, hash))
  {
    hide Read, Replay, ValidCodec, Numbered, Clean, Fresh, MayLeave;
    var events := Recover(c, d.file).value.0;
    var put := StillFresh(records, Replay(events).value.memories, model, hash);
    var clean := AfterWrite(c, d, Repair);
    RepairHolds(c, d);
    assert ([Repair] + [PutEmbeddings(put)])[1..] == [PutEmbeddings(put)];
    if MayLeave(c, d, Repair, x) {
      RepairIsSafe(c, d, x);
    } else {
      RefillReaches(c, clean, put, x);
      HoldingIs(c, clean, events);
      HoldingIs(c, clean.(cache := clean.cache + put), events);
    }
  }

  lemma RefillReaches(c: LogCodec, d: Disk, put: Cache, x: Disk)
    requires MayReach(c, d, [PutEmbeddings(put)], x)
    ensures x == d || x == d.(cache := d.cache + put)
  {
    assert [PutEmbeddings(put)][1..] == [];
  }

  // ---- open

  function FirstProject(projectId: string, workdir: string, now: Time): Project {
    Project(SCHEMA_VERSION, projectId, workdir, now, now)
  }

  function FirstEvent(projectId: string, workdir: string, now: Time, stamp: Stamp): ProjectStates.Event {
    ProjectStates.Event(1, stamp.eventId, stamp.actor, ProjectInitialized(FirstProject(projectId, workdir, now)))
  }

  function Orphans(cache: Cache, m: map<string, Memory>): set<string> {
    cache.Keys - m.Keys
  }

  // The orphans in the order of the cache's keys.
  function OrphanList(cache: Cache, m: map<string, Memory>): seq<string> {
    SortedKeys(Orphans(cache, m))
  }

  lemma OrphanListIs(cache: Cache, m: map<string, Memory>)
    ensures IdSet(OrphanList(cache, m)) == Orphans(cache, m)
  {
    SortedKeysAre(Orphans(cache, m));
  }

  function Dropped(order: seq<string>): seq<Write> {
    if order == [] then [] else [DeleteEmbeddings(order)]
  }

  // Opening: initialize an empty log, refuse another project's, and drop orphaned cache entries.
  function PlanOpen(events: LogEvents, cache: Cache, projectId: string, workdir: string, now: Time, stamp: Stamp)
    : Result<seq<Write>, ProjectStates.Error>
  {
    var s :- Replay(events);
    var first := FirstEvent(projectId, workdir, now, stamp);
    var dropped := Dropped(OrphanList(cache, s.memories));
    if s.lastSeq == 0 then
      var t :- Apply(s, first);
      Ok([AppendRecord(first)] + dropped + [Snapshot(t.(lastSeq := 1))])
    else if s.project.projectId != projectId then Err(Invalid("state belongs to another project"))
    else Ok(dropped + [Snapshot(s)])
  }

  lemma FirstReplay(projectId: string, workdir: string, now: Time, stamp: Stamp)
    ensures Replay([]).Ok? && Replay([]).value.memories == map[] && Replay([]).value.lastSeq == 0
    ensures var e := FirstEvent(projectId, workdir, now, stamp);
      Replay([] + [e]).Ok? && Replay([] + [e]).value.memories == map[] && Numbered([] + [e])
  {
    var e := FirstEvent(projectId, workdir, now, stamp);
    FoldStep([], e);
  }

  // Dropping the orphans is safe at every point, ends sound, and keeps a sound disk sound throughout.
  lemma DropIsSafe(c: LogCodec, d: Disk, events: LogEvents, order: seq<string>, s: State, x: Disk)
    requires Holding(c, d, events)
    requires IdSet(order) == Orphans(d.cache, Replay(events).value.memories)
    requires MayReach(c, d, Dropped(order) + [Snapshot(s)], x)
    ensures Readable(c, x) && (Sound(c, d) ==> Sound(c, x))
    ensures Sound(c, AfterAll(c, d, Dropped(order) + [Snapshot(s)]))
  {
    hide Read, Replay, Numbered, Clean;
    HoldingIs(c, d, events);
    var next := d.(cache := Minus(d.cache, order));
    HoldingIs(c, next, events);
    assert [Snapshot(s)][1..] == [];
    if order == [] {
      assert IdSet(order) == {};
      assert [] + [Snapshot(s)] == [Snapshot(s)];
      assert AfterAll(c, d, [Snapshot(s)]) == d;
    } else {
      var plan := [DeleteEmbeddings(order), Snapshot(s)];
      assert [DeleteEmbeddings(order)] + [Snapshot(s)] == plan && plan[1..] == [Snapshot(s)];
      assert AfterAll(c, next, [Snapshot(s)]) == next;
      assert AfterAll(c, d, plan) == next;
      SnapshotReaches(c, next, s, x);
    }
  }

  // Opening any readable disk can be cut anywhere and tried again, and once it has run no embedding
  // is without its memory. A disk that was sound before is sound at every point of it.
  lemma OpenMakesSound(c: LogCodec, d: Disk, projectId: string, workdir: string, now: Time, stamp: Stamp, x: Disk)
    requires ValidCodec(c) && Readable(c, d)
    requires var r := PlanOpen(Recover(c, d.file).value.0, d.cache, projectId, workdir, now, stamp);
      r.Ok? && MayReach(c, d, [Repair] + r.value, x)
    ensures Readable(c, x) && (Sound(c, d) ==> Sound(c, x))
    ensures var plan := PlanOpen(Recover(c, d.file).value.0, d.cache, projectId, workdir, now, stamp).value;
      Sound(c, AfterAll(c, d, [Repair] + plan))
  {
    hide Read, Replay, ValidCodec, Numbered, Clean, MayReach, MayLeave, AfterAll, OrphanList, Dropped;
    var events := Recover(c, d.file).value.0;
    var s := Replay(events).value;
    var plan := PlanOpen(events, d.cache, projectId, workdir, now, stamp).value;
    var clean := AfterWrite(c, d, Repair);
    var order := OrphanList(d.cache, s.memories);
    OrphanListIs(d.cache, s.memories);
    RepairHolds(c, d);
    HoldingIs(c, clean, events);
    PlanStep(c, d, Repair, plan, x);
    if MayLeave(c, d, Repair, x) {
      RepairIsSafe(c, d, x);
    }
    SomeReach(c, clean, plan);
    var y := if MayReach(c, clean, plan, x) then x else AfterAll(c, clean, plan);
    if s.lastSeq == 0 {
      EmptyLog(events);
      FirstOpenIsSafe(c, clean, projectId, workdir, now, stamp, order, plan, y);
    } else {
      DropIsSafe(c, clean, events, order, s, y);
    }
  }

  // The first opening: the log's first event, then the orphans.
  lemma FirstOpenIsSafe(
    c: LogCodec, d: Disk, projectId: string, workdir: string, now: Time, stamp: Stamp, order: seq<string>,
    plan: seq<Write>, x: Disk)
    requires ValidCodec(c) && Holding(c, d, [])
    requires IdSet(order) == Orphans(d.cache, Replay([]).value.memories)
    requires var first := FirstEvent(projectId, workdir, now, stamp);
      var t := Apply(Replay([]).value, first);
      t.Ok? && plan == [AppendRecord(first)] + Dropped(order) + [Snapshot(t.value.(lastSeq := 1))]
    requires MayReach(c, d, plan, x)
    ensures Readable(c, x) && (Sound(c, d) ==> Sound(c, x))
    ensures Sound(c, AfterAll(c, d, plan))
  {
    hide Read, Replay, ValidCodec, Numbered, Clean, MayReach, MayLeave, AfterAll, Dropped, Apply;
    var first := FirstEvent(projectId, workdir, now, stamp);
    var state := Apply(Replay([]).value, first).value.(lastSeq := 1);
    var rest := Dropped(order) + [Snapshot(state)];
    FirstReplay(projectId, workdir, now, stamp);
    assert plan == [AppendRecord(first)] + rest;
    PlanStep(c, d, AppendRecord(first), rest, x);
    AppendHolds(c, d, [], first);
    var next := AfterWrite(c, d, AppendRecord(first));
    SomeReach(c, next, rest);
    DropIsSafe(c, next, [] + [first], order, state, AfterAll(c, next, rest));
    HoldingIs(c, d, []);
    HoldingIs(c, next, [] + [first]);
    if MayLeave(c, d, AppendRecord(first), x) {
      AppendIsSafe(c, d, [], first, x);
    } else {
      DropIsSafe(c, next, [] + [first], order, state, x);
    }
  }

  lemma PlanStep(c: LogCodec, d: Disk, w: Write, plan: seq<Write>, x: Disk)
    ensures MayReach(c, d, [w] + plan, x) <==> MayLeave(c, d, w, x) || MayReach(c, AfterWrite(c, d, w), plan, x)
    ensures AfterAll(c, d, [w] + plan) == AfterAll(c, AfterWrite(c, d, w), plan)
  {
    assert ([w] + plan)[1..] == plan;
  }

  lemma {:induction false} SomeReach(c: LogCodec, d: Disk, plan: seq<Write>)
    ensures MayReach(c, d, plan, AfterAll(c, d, plan))
    decreases |plan|
  {
    if plan != [] {
      SomeReach(c, AfterWrite(c, d, plan[0]), plan[1..]);
    }
  }

  lemma EmptyLog(events: LogEvents)
    requires Replay(events).Ok? && Numbered(events) && Replay(events).value.lastSeq == 0
    ensures events == []
  {
    LastSeqIsLength(events);
  }

  // ---- whole runs

  type Accept = ProjectStates.Event -> Result<(), ProjectStates.Error>

  datatype Operation =
    | OpOpen(projectId: string, workdir: string, now: Time)
    | OpMutate(decide: State -> Result<Payload, ProjectStates.Error>, now: Time)
    | OpPurge(ids: seq<string>)
    | OpRetain(policy: Policy)
    | OpRefill(records: Cache, model: string, hash: string -> string)

  // An operation with what the host decides about it: its write hook and the IDs of its events.
  datatype Turn = Turn(op: Operation, accept: Accept, stamps: nat -> Stamp)

  function Plan(t: Turn, events: LogEvents, cache: Cache): Result<seq<Write>, ProjectStates.Error> {
    match t.op
    case OpOpen(projectId, workdir, now) => PlanOpen(events, cache, projectId, workdir, now, t.stamps(0))
    case OpMutate(decide, now) => PlanMutate(events, decide, t.accept, t.stamps(0), now)
    case OpPurge(ids) => PlanPurge(events, Unique(ids), t.accept, t.stamps(0))
    case OpRetain(policy) => PlanRetain(events, policy, t.accept, t.stamps)
    case OpRefill(records, model, hash) => PlanRefill(events, records, model, hash)
  }

  // The plan of an operation on a disk; one that fails has only read (and repaired) the log.
  function FullPlan(c: LogCodec, d: Disk, t: Turn): seq<Write> {
    match Recover(c, d.file)
    case None => []
    case Some((events, _)) =>
      match Plan(t, events, d.cache)
      case Ok(plan) => [Repair] + plan
      case Err(_) => [Repair]
  }

  // An opening that does not refuse the log.
  ghost predicate Opens(c: LogCodec, d: Disk, t: Turn) {
    t.op.OpOpen? && Recover(c, d.file).Some? && Plan(t, Recover(c, d.file).value.0, d.cache).Ok?
  }

  // Each disk is what its turn leaves of the one before: run to its end, or cut by a crash at any point
  // of any of its writes.
  ghost predicate Reaches(c: LogCodec, disks: seq<Disk>, turns: seq<Turn>) {
    |disks| == |turns| + 1 &&
    forall i :: 0 <= i < |turns| ==> MayReach(c, disks[i], FullPlan(c, disks[i], turns[i]), disks[i + 1])
  }

  // Over any number of openings and operations, each with its own hook, complete or cut: the cache
  // never outlives a memory, and the log stays numbered from one.
  lemma {:induction false} SoundStaysSound(c: LogCodec, disks: seq<Disk>, turns: seq<Turn>)
    requires ValidCodec(c) && Reaches(c, disks, turns) && Sound(c, disks[0])
    ensures Sound(c, disks[|turns|])
    decreases |turns|
  {
    hide Sound, MayReach, FullPlan;
    var n := |turns|;
    if n > 0 {
      assert disks[..n][0] == disks[0];
      SoundStaysSound(c, disks[..n], turns[..n - 1]);
      OperationIsSafe(c, disks[n - 1], turns[n - 1], disks[n]);
    }
  }

  // So from an empty store, through every restart.
  lemma EveryDiskIsSound(c: LogCodec, disks: seq<Disk>, turns: seq<Turn>)
    requires ValidCodec(c) && Reaches(c, disks, turns) && disks[0] == Disk([], map[])
    ensures Sound(c, disks[|turns|])
  {
    hide Sound, MayReach, FullPlan, Reaches;
    EmptyIsSound(c);
    SoundStaysSound(c, disks, turns);
  }

  // And from any readable log with whatever cache an older crash left: once one opening, after any
  // number of cut ones, has run to its end, every later disk is sound.
  lemma OpenedDisksAreSound(c: LogCodec, disks: seq<Disk>, turns: seq<Turn>, n: nat)
    requires ValidCodec(c) && Reaches(c, disks, turns) && n < |turns| && Readable(c, disks[0])
    requires forall i :: 0 <= i <= n ==> turns[i].op.OpOpen?
    requires Opens(c, disks[n], turns[n]) && disks[n + 1] == AfterAll(c, disks[n], FullPlan(c, disks[n], turns[n]))
    ensures Sound(c, disks[|turns|])
  {
    hide Sound, MayReach, FullPlan, Readable, AfterAll, Opens;
    CutOpensStayReadable(c, disks, turns, n);
    CompleteOpenIsSound(c, disks[n], turns[n]);
    assert disks[n + 1..][0] == disks[n + 1] && disks[n + 1..][|turns| - n - 1] == disks[|turns|];
    SoundStaysSound(c, disks[n + 1..], turns[n + 1..]);
  }

  lemma {:induction false} CutOpensStayReadable(c: LogCodec, disks: seq<Disk>, turns: seq<Turn>, n: nat)
    requires ValidCodec(c) && Reaches(c, disks, turns) && n <= |turns| && Readable(c, disks[0])
    requires forall i :: 0 <= i < n ==> turns[i].op.OpOpen?
    ensures Readable(c, disks[n])
    decreases n
  {
    hide Sound, MayReach, FullPlan, Readable;
    if n > 0 {
      CutOpensStayReadable(c, disks, turns, n - 1);
      OpenIsReadable(c, disks[n - 1], turns[n - 1], disks[n]);
    }
  }

  lemma OpenIsReadable(c: LogCodec, d: Disk, t: Turn, x: Disk)
    requires ValidCodec(c) && Readable(c, d) && t.op.OpOpen? && MayReach(c, d, FullPlan(c, d, t), x)
    ensures Readable(c, x)
  {
    hide Replay, Read, ValidCodec, MayReach, PlanOpen, Numbered, Sound;
    var events := Recover(c, d.file).value.0;
    if Plan(t, events, d.cache).Ok? {
      OpenMakesSound(c, d, t.op.projectId, t.op.workdir, t.op.now, t.stamps(0), x);
    } else {
      OnlyRepaired(c, d, x);
    }
  }

  lemma CompleteOpenIsSound(c: LogCodec, d: Disk, t: Turn)
    requires ValidCodec(c) && Readable(c, d) && Opens(c, d, t)
    ensures Sound(c, AfterAll(c, d, FullPlan(c, d, t)))
  {
    hide Replay, Read, ValidCodec, MayReach, PlanOpen, Numbered, Sound, AfterAll;
    SomeReach(c, d, FullPlan(c, d, t));
    OpenMakesSound(c, d, t.op.projectId, t.op.workdir, t.op.now, t.stamps(0), AfterAll(c, d, FullPlan(c, d, t)));
  }

  // An operation that fails may have repaired the log.
  lemma OnlyRepaired(c: LogCodec, d: Disk, x: Disk)
    requires ValidCodec(c) && Readable(c, d) && MayReach(c, d, [Repair], x)
    ensures Readable(c, x) && (Sound(c, d) ==> Sound(c, x))
  {
    hide Replay, Read, ValidCodec, MayReach;
    PlanStep(c, d, Repair, [], x);
    assert [Repair] + [] == [Repair];
    RepairIsSafe(c, d, AfterWrite(c, d, Repair));
    NoPlan(c, AfterWrite(c, d, Repair), x);
    if MayLeave(c, d, Repair, x) {
      RepairIsSafe(c, d, x);
    }
  }

  lemma OperationIsSafe(c: LogCodec, d: Disk, t: Turn, x: Disk)
    requires ValidCodec(c) && Sound(c, d) && MayReach(c, d, FullPlan(c, d, t), x)
    ensures Sound(c, x)
  {
    hide Replay, Read, ValidCodec, MayReach, PlanOpen, PlanMutate, PlanPurge, PlanRetain, PlanRefill;
    var events := Recover(c, d.file).value.0;
    match Plan(t, events, d.cache) {
      case Ok(plan) =>
        match t.op {
          case OpOpen(projectId, workdir, now) => OpenMakesSound(c, d, projectId, workdir, now, t.stamps(0), x);
          case OpMutate(decide, now) => MutateIsSafe(c, d, decide, t.accept, t.stamps(0), now, x);
          case OpPurge(ids) => PurgeIsSafe(c, d, Unique(ids), t.accept, t.stamps(0), x);
          case OpRetain(policy) => RetainIsSafe(c, d, policy, t.accept, t.stamps, x);
          case OpRefill(records, model, hash) => RefillIsSafe(c, d, records, model, hash, x);
        }
      case Err(_) => OnlyRepaired(c, d, x);
    }
  }

  lemma NoPlan(c: LogCodec, d: Disk, x: Disk)
    ensures MayReach(c, d, [], x) <==> x == d
  {}

  // A fresh store is such a disk.
  lemma EmptyIsSound(c: LogCodec)
    ensures Sound(c, Disk([], map[]))
  {
    var none: Bytes := [];
    assert Fold([]) == Ok(EMPTY) && none[..0] == none;
  }
}

/** The ProjectStore object: the same operations, writing its log and cache in place. */
module ProjectStores {
  import opened Wrappers
  import opened EventLogs
  import opened ProjectStates
  import opened ProjectEngine
  import opened MemoryHistory
  import opened ProjectDisk
  import opened Text

  class ProjectStore {
    const log: EventLog<ProjectStates.Event>
    const codec: LogCodec
    var cache: Cache
    ghost var journal: seq<Write>   // every single write so far, in order

    ghost function Now(): Disk
      reads this, log
    {
      Disk(log.file, cache)
    }

    ghost predicate Valid()
      reads this, log
    {
      log.codec == codec
    }

    // The disk is `start` with the journal from `from` on written to it.
    ghost predicate Since(start: Disk, before: seq<Write>, plan: seq<Write>)
      reads this, log
    {
      Valid() && journal == before + plan && Now() == AfterAll(codec, start, plan)
    }

    // The plan has been written behind the repair, or only the repair if there is none.
    ghost predicate Carried(start: Disk, before: seq<Write>, ok: bool, plan: Result<seq<Write>, ProjectStates.Error>)
      reads this, log
    {
      ok == plan.Ok? && Since(start, before, [Repair] + if plan.Ok? then plan.value else [])
    }

    constructor (log: EventLog<ProjectStates.Event>, cache: Cache)
      ensures Valid() && this.log == log && this.cache == cache && journal == []
    {
      this.log := log;
      this.codec := log.codec;
      this.cache := cache;
      journal := [];
    }

    lemma Wrote(start: Disk, before: seq<Write>, plan: seq<Write>, at: Disk, w: Write)
      requires at == AfterAll(codec, start, plan) && Now() == AfterWrite(codec, at, w)
      requires Valid() && journal == before + plan + [w]
      ensures Since(start, before, plan + [w])
    {
      AfterAllSnoc(codec, start, plan, w);
    }

    method Events(ghost before: seq<Write>) returns (r: Option<LogEvents>)
      requires Valid() && journal == before
      modifies this`journal, log
      ensures var s := Recover(codec, old(log.file));
        && r == (if s.None? then None else Some(s.value.0)) && cache == old(cache)
        && Since(old(Now()), before, if s.None? then [] else [Repair])
    {
      r := log.Events();
      if r.None? {
        assert before + [] == before;
        return;
      }
      journal := journal + [Repair];
      assert before + [] + [Repair] == before + [Repair] && [] + [Repair] == [Repair];
      Wrote(old(Now()), before, [], old(Now()), Repair);
    }

    method AppendEvent(e: ProjectStates.Event, ghost start: Disk, ghost before: seq<Write>, ghost plan: seq<Write>)
      requires Since(start, before, plan)
      modifies this`journal, log
      ensures Since(start, before, plan + [AppendRecord(e)]) && cache == old(cache)
    {
      ghost var at := Now();
      log.Append(e);
      journal := journal + [AppendRecord(e)];
      Wrote(start, before, plan, at, AppendRecord(e));
    }

    method ReplaceEvents(es: LogEvents, ghost start: Disk, ghost before: seq<Write>, ghost plan: seq<Write>)
      requires Since(start, before, plan)
      modifies this`journal, log
      ensures Since(start, before, plan + [ReplaceLog(es)]) && cache == old(cache)
    {
      ghost var at := Now();
      log.Replace(es);
      journal := journal + [ReplaceLog(es)];
      Wrote(start, before, plan, at, ReplaceLog(es));
    }

    method Put(records: Cache, ghost start: Disk, ghost before: seq<Write>, ghost plan: seq<Write>)
      requires Since(start, before, plan)
      modifies this
      ensures Since(start, before, plan + [PutEmbeddings(records)])
    {
      ghost var at := Now();
      cache := cache + records;
      journal := journal + [PutEmbeddings(records)];
      Wrote(start, before, plan, at, PutEmbeddings(records));
    }

    // The entries go from a copy, which then replaces the file.
    method DropEmbeddings(ids: seq<string>, ghost start: Disk, ghost before: seq<Write>, ghost plan: seq<Write>)
      requires Since(start, before, plan)
      modifies this
      ensures Since(start, before, plan + [DeleteEmbeddings(ids)])
    {
      ghost var at := Now();
      var all := cache;
      for i := 0 to |ids|
        invariant all == Minus(at.cache, ids[..i])
      {
        assert ids[..i + 1] == ids[..i] + [ids[i]];
        assert IdSet(ids[..i + 1]) == IdSet(ids[..i]) + {ids[i]};
        all := all - {ids[i]};
      }
      assert ids[..|ids|] == ids;
      cache := all;
      journal := journal + [DeleteEmbeddings(ids)];
      Wrote(start, before, plan, at, DeleteEmbeddings(ids));
    }

    method WriteSnapshot(s: State, ghost start: Disk, ghost before: seq<Write>, ghost plan: seq<Write>)
      requires Since(start, before, plan)
      modifies this`journal
      ensures Since(start, before, plan + [Snapshot(s)])
    {
      journal := journal + [Snapshot(s)];
      Wrote(start, before, plan, Now(), Snapshot(s));
    }

    // The first half of mutate(): replay, decide, check, apply and recompute, without writing.
    static method PrepareMutation(
      events: LogEvents, decide: State -> Result<Payload, ProjectStates.Error>, accept: Accept, stamp: Stamp, now: Time)
      returns (r: Result<(ProjectStates.Event, State), ProjectStates.Error>)
      ensures var plan := PlanMutate(events, decide, accept, stamp, now);
        r.Ok? == plan.Ok? &&
        (r.Ok? ==>
          var (ev, state) := r.value;
          plan.value == CacheDeletes(ev.payload) + [AppendRecord(ev), Snapshot(state)])
    {
      hide ProjectStates.Replay, ProjectStates.Apply, ProjectStates.RecomputeBlocks;
      var state := new ProjectState();
      var ok := state.Replay(events);
      if ok.Err? {
        return Err(ok.error);
      }
      var payload := decide(state.Value());
      if payload.Err? {
        return Err(payload.error);
      }
      var ev := ProjectStates.Event(state.lastSeq + 1, stamp.eventId, stamp.actor, payload.value);
      ok := accept(ev);
      if ok.Err? {
        return Err(ok.error);
      }
      ok := state.Apply(ev);
      if ok.Err? {
        return Err(ok.error);
      }
      state.RecomputeBlocks();
      state.project := state.project.(updatedAt := now);
      if ev.payload.MemoryDeleted? && !ev.payload.named {
        return Err(Json);
      }
      r := Ok((ev, state.Value()));
    }

    method Mutate(
      decide: State -> Result<Payload, ProjectStates.Error>, accept: Accept, stamp: Stamp, now: Time)
      returns (r: Result<(), ProjectStates.Error>)
      requires Valid()
      modifies this, log
      ensures match Recover(codec, old(log.file))
        case None => r == Err(Json) && Since(old(Now()), old(journal), [])
        case Some(s) => Carried(old(Now()), old(journal), r.Ok?, PlanMutate(s.0, decide, accept, stamp, now))
    {
      hide PlanMutate, AfterAll, AfterWrite, Recover;
      ghost var (start, before) := (Now(), journal);
      var read := Events(journal);
      if read.None? {
        return Err(Json);
      }
      assert [Repair] + [] == [Repair];
      var prepared := PrepareMutation(read.value, decide, accept, stamp, now);
      if prepared.Err? {
        return Err(prepared.error);
      }
      var (ev, state) := prepared.value;
      ghost var plan := [Repair];
      if ev.payload.MemoryDeleted? {
        DropEmbeddings([ev.payload.id], start, before, plan);
        plan := plan + [DeleteEmbeddings([ev.payload.id])];
      }
      AppendEvent(ev, start, before, plan);
      WriteSnapshot(state, start, before, plan + [AppendRecord(ev)]);
      assert plan + [AppendRecord(ev)] + [Snapshot(state)]
        == [Repair] + (CacheDeletes(ev.payload) + [AppendRecord(ev), Snapshot(state)]);
      r := Ok(());
    }

    // The first half of purge_locked(): filter, renumber and replay.
    static method PreparePurge(events: LogEvents, ids: seq<string>, accept: Accept, stamp: Stamp)
      returns (r: Result<(LogEvents, State), ProjectStates.Error>)
      ensures var plan := PlanPurge(events, ids, accept, stamp);
        r.Ok? == plan.Ok? &&
        (r.Ok? ==>
          var (kept, state) := r.value;
          plan.value == [DeleteEmbeddings(ids), ReplaceLog(kept), Snapshot(state)])
    {
      hide ProjectStates.Replay;
      var ok := accept(ProjectStates.Event(0, stamp.eventId, stamp.actor, Other("memory.purged")));
      if ok.Err? {
        return Err(ok.error);
      }
      var kept := Kept(events, ids);
      var renumbered: LogEvents := [];
      for i := 0 to |kept|
        invariant renumbered == Renumbered(kept[..i])
      {
        assert kept[..i + 1][..i] == kept[..i];
        renumbered := renumbered + [kept[i].(seqNo := i + 1)];
      }
      assert kept[..|kept|] == kept;
      var state := new ProjectState();
      ok := state.Replay(renumbered);
      if ok.Err? {
        return Err(ok.error);
      }
      r := Ok((renumbered, state.Value()));
    }

    method PurgeLocked(
      events: LogEvents, ids: seq<string>, accept: Accept, stamp: Stamp, ghost start: Disk, ghost before: seq<Write>)
      returns (r: Result<(), ProjectStates.Error>)
      requires Since(start, before, [Repair])
      modifies this, log
      ensures Carried(start, before, r.Ok?, PlanPurge(events, ids, accept, stamp))
    {
      hide PlanPurge, AfterAll;
      assert [Repair] + [] == [Repair];
      var prepared := PreparePurge(events, ids, accept, stamp);
      if prepared.Err? {
        return Err(prepared.error);
      }
      var (kept, state) := prepared.value;
      DropEmbeddings(ids, start, before, [Repair]);
      ReplaceEvents(kept, start, before, [Repair] + [DeleteEmbeddings(ids)]);
      WriteSnapshot(state, start, before, [Repair] + [DeleteEmbeddings(ids)] + [ReplaceLog(kept)]);
      assert [Repair] + [DeleteEmbeddings(ids)] + [ReplaceLog(kept)] + [Snapshot(state)]
        == [Repair] + [DeleteEmbeddings(ids), ReplaceLog(kept), Snapshot(state)];
      r := Ok(());
    }

    method PurgeMemories(ids: seq<string>, accept: Accept, stamp: Stamp) returns (r: Result<(), ProjectStates.Error>)
      requires Valid()
      modifies this, log
      ensures match Recover(codec, old(log.file))
        case None => r == Err(Json) && Since(old(Now()), old(journal), [])
        case Some(s) => Carried(old(Now()), old(journal), r.Ok?, PlanPurge(s.0, Unique(ids), accept, stamp))
    {
      ghost var (start, before) := (Now(), journal);
      var read := Events(journal);
      if read.None? {
        return Err(Json);
      }
      r := PurgeLocked(read.value, Unique(ids), accept, stamp, start, before);
    }

    // The deletion events of retain_memories(), each shown to the write hook before any is written.
    static method PrepareDeletions(ids: seq<string>, last: int, accept: Accept, stamps: nat -> Stamp)
      returns (r: Result<LogEvents, ProjectStates.Error>)
      ensures var es := Deletions(ids, |ids|, last, stamps);
        if AcceptAll(es, accept).Ok? then r == Ok(es) else r.Err?
    {
      var pending: LogEvents := [];
      DeletionsSnoc(ids, 0, last, stamps);
      AcceptSnoc([], Deletion(0, "", stamps(0)), accept);
      hide AcceptAll, Deletions;
      for i := 0 to |ids|
        invariant pending == Deletions(ids, i, last, stamps) && AcceptAll(pending, accept).Ok?
      {
        var ev := Deletion(last + i + 1, ids[i], stamps(i));
        DeletionsSnoc(ids, i, last, stamps);
        AcceptSnoc(pending, ev, accept);
        var ok := accept(ev);
        if ok.Err? {
          DeletionsPrefix(ids, i + 1, last, stamps);
          AcceptError(Deletions(ids, |ids|, last, stamps), i + 1, accept);
          return Err(ok.error);
        }
        pending := pending + [ev];
      }
      r := Ok(pending);
    }

    // Apply and append one deletion after another.
    method AppendDeletions(
      state: ProjectState, es: LogEvents, ghost ids: seq<string>, ghost last: int, ghost stamps: nat -> Stamp,
      ghost start: Disk, ghost before: seq<Write>, ghost plan: seq<Write>)
      requires Since(start, before, plan) && es == Deletions(ids, |ids|, last, stamps)
      requires state as object != this && state as object != log
      modifies this, log, state
      ensures Since(start, before, plan + Appends(es))
      ensures state.Value() == old(state.Value()).(memories := old(state.memories) - IdSet(ids))
    {
      hide AfterAll, AfterWrite, ProjectStates.Apply, Deletions;
      DeletionsAre(ids, |ids|, last, stamps);
      assert plan + Appends(es[..0]) == plan && ids[..0] == [];
      assert old(state.memories) - IdSet(ids[..0]) == old(state.memories);
      for i := 0 to |es|
        invariant Since(start, before, plan + Appends(es[..i]))
        invariant state.Value() == old(state.Value()).(memories := old(state.memories) - IdSet(ids[..i]))
      {
        var ev := es[i];
        DeletionApplies(state.Value(), ev);
        DropOneMore(old(state.memories), ids, i + 1);
        var ok := state.Apply(ev);
        AppendEvent(ev, start, before, plan + Appends(es[..i]));
        AppendsSnoc(es[..i], ev);
        assert es[..i + 1] == es[..i] + [ev];
        assert plan + Appends(es[..i]) + [AppendRecord(ev)] == plan + Appends(es[..i + 1]);
      }
      assert es[..|es|] == es && ids[..|ids|] == ids;
    }

    method RetainMemories(p: Policy, accept: Accept, stamps: nat -> Stamp)
      returns (r: Result<seq<string>, ProjectStates.Error>)
      requires Valid()
      modifies this, log
      ensures match Recover(codec, old(log.file))
        case None => r == Err(Json) && Since(old(Now()), old(journal), [])
        case Some(s) =>
          && Carried(old(Now()), old(journal), r.Ok?, PlanRetain(s.0, p, accept, stamps))
          && (r.Ok? ==> r.value == Doomed(ProjectStates.Replay(s.0).value.memories, p))
    {
      hide AfterAll, AfterWrite, Recover, ProjectStates.Replay, PlanPurge, Doomed, Deletions;
      ghost var (start, before) := (Now(), journal);
      var read := Events(journal);
      if read.None? {
        return Err(Json);
      }
      assert [Repair] + [] == [Repair];
      var state := new ProjectState();
      var ok := state.Replay(read.value);
      if ok.Err? {
        return Err(ok.error);
      }
      var ids := Doomed(state.memories, p);
      if p.purgeHistory {
        ok := PurgeLocked(read.value, ids, accept, stamps(0), start, before);
        if ok.Err? {
          return Err(ok.error);
        }
        return Ok(ids);
      }
      ok := DeleteLocked(state, ids, accept, stamps, start, before);
      if ok.Err? {
        return Err(ok.error);
      }
      r := Ok(ids);
    }

    // The deletions of retain_memories() without a purge, on the replayed state.
    method DeleteLocked(
      state: ProjectState, ids: seq<string>, accept: Accept, stamps: nat -> Stamp, ghost start: Disk,
      ghost before: seq<Write>) returns (r: Result<(), ProjectStates.Error>)
      requires Since(start, before, [Repair]) && state as object != this && state as object != log
      modifies this, log, state
      ensures Carried(start, before, r.Ok?, PlanDeletions(old(state.Value()), ids, accept, stamps))
    {
      hide AfterAll, AfterWrite, Deletions;
      assert [Repair] + [] == [Repair];
      ghost var last := state.lastSeq;
      var pending := PrepareDeletions(ids, state.lastSeq, accept, stamps);
      if pending.Err? {
        return Err(pending.error);
      }
      DropEmbeddings(ids, start, before, [Repair]);
      AppendDeletions(state, pending.value, ids, last, stamps, start, before, [Repair] + [DeleteEmbeddings(ids)]);
      WriteSnapshot(state.Value(), start, before, [Repair] + [DeleteEmbeddings(ids)] + Appends(pending.value));
      assert [Repair] + [DeleteEmbeddings(ids)] + Appends(pending.value) + [Snapshot(state.Value())]
        == [Repair] + ([DeleteEmbeddings(ids)] + Appends(pending.value) + [Snapshot(state.Value())]);
      r := Ok(());
    }

    // The locked end of search_with_embeddings(): keep what is still fresh, then store it.
    method Refill(records: Cache, model: string, hash: string -> string) returns (r: Result<(), ProjectStates.Error>)
      requires Valid()
      modifies this, log
      ensures match Recover(codec, old(log.file))
        case None => r == Err(Json) && Since(old(Now()), old(journal), [])
        case Some(s) => Carried(old(Now()), old(journal), r.Ok?, PlanRefill(s.0, records, model, hash))
    {
      hide AfterAll, AfterWrite, Recover, ProjectStates.Replay;
      ghost var (start, before) := (Now(), journal);
      var read := Events(journal);
      if read.None? {
        return Err(Json);
      }
      assert [Repair] + [] == [Repair];
      var current := new ProjectState();
      var ok := current.Replay(read.value);
      if ok.Err? {
        return Err(ok.error);
      }
      Put(StillFresh(records, current.memories, model, hash), start, before, [Repair]);
      r := Ok(());
    }

    // The orphans' removal, if there are any, and the snapshot that end every opening.
    method DropOrphans(
      orphans: seq<string>, s: State, ghost start: Disk, ghost before: seq<Write>, ghost plan: seq<Write>)
      requires Since(start, before, plan)
      modifies this
      ensures Since(start, before, plan + (Dropped(orphans) + [Snapshot(s)]))
    {
      hide AfterAll, AfterWrite;
      if orphans != [] {
        DropEmbeddings(orphans, start, before, plan);
        WriteSnapshot(s, start, before, plan + [DeleteEmbeddings(orphans)]);
        assert plan + [DeleteEmbeddings(orphans)] + [Snapshot(s)] ==
          plan + ([DeleteEmbeddings(orphans)] + [Snapshot(s)]);
      } else {
        WriteSnapshot(s, start, before, plan);
        assert [] + [Snapshot(s)] == [Snapshot(s)];
      }
    }

    // open(): initialize an empty log, check the project, drop orphans, snapshot.
    method Open(projectId: string, workdir: string, now: Time, stamp: Stamp)
      returns (r: Result<(), ProjectStates.Error>)
      requires Valid()
      modifies this, log
      ensures match Recover(codec, old(log.file))
        case None => r == Err(Json) && Since(old(Now()), old(journal), [])
        case Some(s) =>
          Carried(old(Now()), old(journal), r.Ok?, PlanOpen(s.0, old(cache), projectId, workdir, now, stamp))
    {
      hide AfterAll, AfterWrite, Recover, ProjectStates.Replay, IdSet, OrphanList;
      ghost var (start, before) := (Now(), journal);
      var read := Events(journal);
      if read.None? {
        return Err(Json);
      }
      assert [Repair] + [] == [Repair];
      var state := new ProjectState();
      var ok := state.Replay(read.value);
      if ok.Err? {
        return Err(ok.error);
      }
      var orphans := OrphanList(cache, state.memories);
      if state.lastSeq == 0 {
        var event := FirstEvent(projectId, workdir, now, stamp);
        AppendEvent(event, start, before, [Repair]);
        ok := state.Apply(event);
        state.lastSeq := 1;
        DropOrphans(orphans, state.Value(), start, before, [Repair] + [AppendRecord(event)]);
        assert [Repair] + [AppendRecord(event)] + (Dropped(orphans) + [Snapshot(state.Value())])
          == [Repair] + ([AppendRecord(event)] + Dropped(orphans) + [Snapshot(state.Value())]);
      } else {
        if state.project.projectId != projectId {
          return Err(Invalid("state belongs to another project"));
        }
        DropOrphans(orphans, state.Value(), start, before, [Repair]);
      }
      r := Ok(());
    }
  }

  lemma AcceptSnoc(es: LogEvents, e: ProjectStates.Event, accept: Accept)
    ensures AcceptAll([], accept).Ok?
    ensures AcceptAll(es + [e], accept).Ok? <==> AcceptAll(es, accept).Ok? && accept(e).Ok?
  {
    assert (es + [e])[..|es|] == es;
  }

  lemma DeletionsSnoc(ids: seq<string>, i: nat, last: int, stamps: nat -> Stamp)
    requires i <= |ids|
    ensures Deletions(ids, 0, last, stamps) == []
    ensures i < |ids| ==>
      Deletions(ids, i + 1, last, stamps) ==
        Deletions(ids, i, last, stamps) + [Deletion(last + i + 1, ids[i], stamps(i))]
  {}

  lemma {:induction false} AcceptError(es: LogEvents, i: nat, accept: Accept)
    requires i <= |es| && AcceptAll(es[..i], accept).Err?
    ensures AcceptAll(es, accept).Err?
    decreases |es| - i
  {
    if i < |es| {
      assert es[..i + 1][..i] == es[..i];
      AcceptError(es, i + 1, accept);
    } else {
      assert es[..i] == es;
    }
  }

  lemma {:induction false} AppendsSnoc(es: LogEvents, e: ProjectStates.Event)
    ensures Appends(es + [e]) == Appends(es) + [AppendRecord(e)]
  {
    if es != [] {
      assert (es + [e])[1..] == es[1..] + [e];
      AppendsSnoc(es[1..], e);
    } else {
      assert [] + [e] == [e] && [e][1..] == [];
    }
  }

  lemma {:induction false} AfterAllSnoc(c: LogCodec, d: Disk, plan: seq<Write>, w: Write)
    ensures AfterAll(c, d, plan + [w]) == AfterWrite(c, AfterAll(c, d, plan), w)
    decreases |plan|
  {
    if plan == [] {
      assert [] + [w] == [w] && [w][1..] == [];
    } else {
      assert (plan + [w])[0] == plan[0] && (plan + [w])[1..] == plan[1..] + [w];
      AfterAllSnoc(c, AfterWrite(c, d, plan[0]), plan[1..], w);
    }
  }
}
