/** Purging and retention as transformations of an event log (engine.rs). */
module MemoryHistory {
  import opened Wrappers
  import opened Ordering
  import opened Text
  import opened ProjectStates

  function IdSet(ids: seq<string>): set<string> {
    set id | id in ids
  }

  // The events a purge of these IDs erases: named upserts and deletions of them.
  predicate Purged(e: Event, ids: seq<string>) {
    match e.payload
    case MemoryUpserted(m, named) => named && m.id in ids
    case MemoryDeleted(id, named) => named && id in ids
    case Malformed(kind, id) => (kind == "memory.upserted" || kind == "memory.deleted") && id.Some? && id.value in ids
    case _ => false
  }

  function Kept(events: seq<Event>, ids: seq<string>): seq<Event> {
    if events == [] then []
    else
      var last := events[|events| - 1];
      Kept(events[..|events| - 1], ids) + if Purged(last, ids) then [] else [last]
  }

  function Renumbered(events: seq<Event>): seq<Event> {
    if events == [] then []
    else Renumbered(events[..|events| - 1]) + [events[|events| - 1].(seqNo := |events|)]
  }

  // The log a purge writes.
  function Purge(events: seq<Event>, ids: seq<string>): seq<Event> {
    Renumbered(Kept(events, ids))
  }

  // Whether the last event about the unnamed memory (one whose JSON has no ID) leaves it alive.
  function UnnamedLive(events: seq<Event>): bool {
    events != [] && UnnamedAfter(events[|events| - 1], UnnamedLive(events[..|events| - 1]))
  }

  ghost predicate Numbered(events: seq<Event>) {
    forall i :: 0 <= i < |events| ==> events[i].seqNo == i + 1
  }

  lemma {:induction false} RenumberedIs(events: seq<Event>)
    ensures |Renumbered(events)| == |events| && Numbered(Renumbered(events))
  {
    if events != [] {
      RenumberedIs(events[..|events| - 1]);
    }
  }

  lemma {:induction false} LastSeqIsLength(events: seq<Event>)
    requires Numbered(events) && Fold(events).Ok?
    ensures Fold(events).value.lastSeq == |events|
  {
    if events != [] {
      var n := |events| - 1;
      LastSeqIsLength(events[..n]);
      hide Apply;
      ApplyKeepsSeq(Fold(events[..n]).value, events[n]);
    }
  }

  // `g` is `f` without the purged memories, but for an unnamed one that lives on.
  ghost predicate Erased(f: State, g: State, ids: seq<string>, unnamed: bool) {
    && g.project == f.project && g.tasks == f.tasks && g.sessions == f.sessions
    && (forall id :: id !in ids ==> (id in g.memories <==> id in f.memories))
    && (forall id :: id !in ids && id in f.memories && id in g.memories ==> g.memories[id] == f.memories[id])
    && (forall id :: id in ids && id in g.memories ==> id == "")
    && ("" in ids ==> ("" in g.memories <==> unnamed))
  }

  // What an event that touches memories does to them.
  function MemoryEffect(m: map<string, Memory>, ev: Event): map<string, Memory> {
    match ev.payload
    case MemoryUpserted(x, named) => var id := Key(x.id, named); m[id := x.(id := id)]
    case MemoryDeleted(id, named) => m - {Key(id, named)}
    case _ => m
  }

  lemma EditIgnoresSeq(t: Task, ev: Event, n: int)
    ensures Edit(t, ev.(seqNo := n)) == Edit(t, ev)
    ensures Replacement(ev.(seqNo := n)) == Replacement(ev) && Target(ev.(seqNo := n)) == Target(ev)
  {}

  lemma TaskEffectIgnoresSeq(tasks: map<string, Task>, ev: Event, n: int, any: Task)
    ensures TaskEffect(tasks, ev.(seqNo := n)) == TaskEffect(tasks, ev)
  {
    hide Edit, Replacement, Target;
    EditIgnoresSeq(any, ev, n);
    if Target(ev).Some? && Target(ev).value in tasks {
      EditIgnoresSeq(tasks[Target(ev).value], ev, n);
    }
  }

  lemma ApplyMemories(s: State, ev: Event)
    ensures Apply(s, ev).Ok? ==> Apply(s, ev).value.memories == MemoryEffect(s.memories, ev)
  {
    hide TaskEffect, Write;
  }

  lemma MemoryEffectIgnoresSeq(m: map<string, Memory>, ev: Event, n: int)
    ensures MemoryEffect(m, ev.(seqNo := n)) == MemoryEffect(m, ev)
  {}

  lemma ApplyRest(s: State, t: State, ev: Event, n: int)
    requires s.tasks == t.tasks && s.project == t.project && s.sessions == t.sessions
    requires Apply(s, ev).Ok?
    ensures Apply(t, ev.(seqNo := n)).Ok?
    ensures var (a, b) := (Apply(s, ev).value, Apply(t, ev.(seqNo := n)).value);
      b.project == a.project && b.tasks == a.tasks && b.sessions == a.sessions
  {
    TaskEffectIgnoresSeq(s.tasks, ev, n, Task("", "", 0, "", [], [], [], [], 0, None, ""));
    hide TaskEffect, Write, ProjectStates.Key;
    var (e, f) := (ev.payload, ev.(seqNo := n).payload);
    assert e == f;
  }

  // An event applies alike to states that differ in their memories, whatever its number.
  lemma ApplySplits(s: State, t: State, ev: Event, n: int)
    requires s.tasks == t.tasks && s.project == t.project && s.sessions == t.sessions
    requires Apply(s, ev).Ok?
    ensures Apply(t, ev.(seqNo := n)).Ok?
    ensures var (a, b) := (Apply(s, ev).value, Apply(t, ev.(seqNo := n)).value);
      && b.project == a.project && b.tasks == a.tasks && b.sessions == a.sessions
      && a.memories == MemoryEffect(s.memories, ev) && b.memories == MemoryEffect(t.memories, ev)
  {
    hide *;
    ApplyRest(s, t, ev, n);
    ApplyMemories(s, ev);
    ApplyMemories(t, ev.(seqNo := n));
    MemoryEffectIgnoresSeq(t.memories, ev, n);
  }

  lemma PurgedOnlyTouchesMemories(s: State, ev: Event, ids: seq<string>)
    requires Purged(ev, ids) && Apply(s, ev).Ok?
    ensures var t := Apply(s, ev).value;
      t.project == s.project && t.tasks == s.tasks && t.sessions == s.sessions
      && t.memories == MemoryEffect(s.memories, ev)
  {}

  // Whether the unnamed memory lives after one more event.
  function UnnamedAfter(ev: Event, unnamed: bool): bool {
    match ev.payload
    case MemoryUpserted(_, named) => if named then unnamed else true
    case MemoryDeleted(_, named) => if named then unnamed else false
    case _ => unnamed
  }

  lemma EffectErased(f: State, g: State, ev: Event, ids: seq<string>, unnamed: bool)
    requires Erased(f, g, ids, unnamed)
    ensures Erased(f.(memories := MemoryEffect(f.memories, ev)),
                   if Purged(ev, ids) then g else g.(memories := MemoryEffect(g.memories, ev)),
                   ids, UnnamedAfter(ev, unnamed))
  {}

  lemma ErasedAlike(f: State, g: State, a: State, b: State, ids: seq<string>, unnamed: bool, i: int, j: int)
    requires Erased(f, g, ids, unnamed)
    requires a.project == b.project && a.tasks == b.tasks && a.sessions == b.sessions
    requires a.memories == f.memories && b.memories == g.memories
    ensures Erased(a.(lastSeq := i), b.(lastSeq := j), ids, unnamed)
  {}

  // One event on both sides: a purged one is skipped on the right.
  lemma StepErased(f: State, g: State, ev: Event, ids: seq<string>, unnamed: bool, n: int, i: int, j: int)
    requires Erased(f, g, ids, unnamed) && Apply(f, ev).Ok?
    ensures !Purged(ev, ids) ==> Apply(g, ev.(seqNo := n)).Ok?
    ensures var g' := if Purged(ev, ids) then g else Apply(g, ev.(seqNo := n)).value;
      Erased(Apply(f, ev).value.(lastSeq := i), g'.(lastSeq := j), ids, UnnamedAfter(ev, unnamed))
  {
    hide Apply, MemoryEffect, Purged;
    EffectErased(f, g, ev, ids, unnamed);
    var f1 := f.(memories := MemoryEffect(f.memories, ev));
    if Purged(ev, ids) {
      PurgedOnlyTouchesMemories(f, ev, ids);
      ErasedAlike(f1, g, Apply(f, ev).value, g, ids, UnnamedAfter(ev, unnamed), i, j);
    } else {
      ApplySplits(f, g, ev, n);
      var g1 := g.(memories := MemoryEffect(g.memories, ev));
      ErasedAlike(f1, g1, Apply(f, ev).value, Apply(g, ev.(seqNo := n)).value, ids, UnnamedAfter(ev, unnamed), i, j);
    }
  }

  lemma ApplyNumbered(f: State, g: State, ev: Event, ids: seq<string>, unnamed: bool, n: int)
    requires Erased(f, g, ids, unnamed) && Apply(f, ev).Ok?
    ensures Apply(g, ev.(seqNo := n)).Ok?
  {
    hide Apply, MemoryEffect;
    ApplySplits(f, g, ev, n);
  }

  lemma PurgeStep(before: seq<Event>, ev: Event, ids: seq<string>)
    ensures Purge(before + [ev], ids) ==
      if Purged(ev, ids) then Purge(before, ids)
      else Purge(before, ids) + [ev.(seqNo := |Purge(before, ids)| + 1)]
    ensures UnnamedLive(before + [ev]) == UnnamedAfter(ev, UnnamedLive(before))
  {
    var events := before + [ev];
    assert events[..|events| - 1] == before;
    var kept := Kept(before, ids);
    RenumberedIs(kept);
    assert (kept + [ev])[..|kept|] == kept;
    assert kept + [] == kept;
  }

  lemma FoldStep(before: seq<Event>, ev: Event)
    ensures Fold(before + [ev]).Ok? <==> Fold(before).Ok? && Apply(Fold(before).value, ev).Ok?
    ensures Fold(before + [ev]).Ok? ==>
      var t := Apply(Fold(before).value, ev).value;
      Fold(before + [ev]).value == t.(lastSeq := Max(t.lastSeq, ev.seqNo))
  {
    assert (before + [ev])[..|before|] == before;
  }

  lemma PurgeNothing(ids: seq<string>)
    ensures Fold([]).Ok? && Purge([], ids) == [] && Erased(Fold([]).value, Fold([]).value, ids, UnnamedLive([]))
  {}

  // Replaying the purged log succeeds whenever the original replay did, and erases only memories.
  lemma {:induction false} PurgeFold(events: seq<Event>, ids: seq<string>)
    requires Fold(events).Ok?
    ensures Fold(Purge(events, ids)).Ok?
    ensures Erased(Fold(events).value, Fold(Purge(events, ids)).value, ids, UnnamedLive(events))
  {
    hide *;
    if events == [] {
      PurgeNothing(ids);
    } else {
      var (before, ev) := (events[..|events| - 1], events[|events| - 1]);
      assert events == before + [ev];
      FoldStep(before, ev);
      PurgeStep(before, ev, ids);
      PurgeFold(before, ids);
      var (f, g) := (Fold(before).value, Fold(Purge(before, ids)).value);
      var n := |Purge(before, ids)| + 1;
      var last := Max(Apply(f, ev).value.lastSeq, ev.seqNo);
      if Purged(ev, ids) {
        StepErased(f, g, ev, ids, UnnamedLive(before), n, last, g.lastSeq);
        assert g == g.(lastSeq := g.lastSeq);
      } else {
        ApplyNumbered(f, g, ev, ids, UnnamedLive(before), n);
        StepErased(f, g, ev, ids, UnnamedLive(before), n, last, Max(Apply(g, ev.(seqNo := n)).value.lastSeq, n));
        FoldStep(Purge(before, ids), ev.(seqNo := n));
      }
    }
  }

  // Purge preserves meaning: same project, tasks (links included) and sessions, exactly the other
  // memories, and a log numbered from one.
  lemma PurgePreservesMeaning(events: seq<Event>, ids: seq<string>)
    requires Replay(events).Ok?
    ensures Replay(Purge(events, ids)).Ok? && Numbered(Purge(events, ids))
    ensures var (s, t) := (Replay(events).value, Replay(Purge(events, ids)).value);
      && t.project == s.project && t.tasks == s.tasks && t.sessions == s.sessions
      && Erased(s, t, ids, UnnamedLive(events))
  {
    hide Fold, Purge, Relinked, Kept, Erased, UnnamedLive, Numbered;
    PurgeFold(events, ids);
    PurgeNumbers(events, ids);
    ErasedRelinked(Fold(events).value, Fold(Purge(events, ids)).value, ids, UnnamedLive(events));
  }

  lemma PurgeNumbers(events: seq<Event>, ids: seq<string>)
    ensures Numbered(Purge(events, ids))
  {
    RenumberedIs(Kept(events, ids));
  }

  lemma ErasedRelinked(f: State, g: State, ids: seq<string>, unnamed: bool)
    requires Erased(f, g, ids, unnamed)
    ensures Erased(RecomputeBlocks(f), RecomputeBlocks(g), ids, unnamed)
    ensures var (s, t) := (RecomputeBlocks(f), RecomputeBlocks(g));
      t.project == s.project && t.tasks == s.tasks && t.sessions == s.sessions
  {
    hide Relinked;
  }

  // The memories left are the original ones minus the purged IDs, unless the empty ID is purged
  // while a memory whose JSON never named one is alive under it.
  lemma PurgeErasesExactly(events: seq<Event>, ids: seq<string>)
    requires Replay(events).Ok? && Replay(Purge(events, ids)).Ok?
    ensures Replay(Purge(events, ids)).value.memories == Replay(events).value.memories - IdSet(ids)
      <==> !("" in ids && UnnamedLive(events))
  {
    PurgePreservesMeaning(events, ids);
    var (f, g) := (Replay(events).value.memories, Replay(Purge(events, ids)).value.memories);
    if "" in ids && UnnamedLive(events) {
      assert "" in g && "" !in f - IdSet(ids);
    } else {
      forall id ensures id in g <==> id in f - IdSet(ids) {}
      assert g == f - IdSet(ids);
    }
  }

  lemma {:induction false} UniqueIs(ids: seq<string>, n: nat)
    requires n <= |ids|
    ensures forall x :: x in UniqueUpTo(ids, n) <==> x != "" && exists i :: 0 <= i < n && Trim(ids[i]) == x
  {
    if n > 0 {
      UniqueIs(ids, n - 1);
    }
  }

  // The public purge drops empty IDs first, so it always erases exactly the IDs it was given.
  lemma PurgeMemoriesErasesExactly(events: seq<Event>, ids: seq<string>)
    requires Replay(events).Ok?
    ensures forall x :: x in Unique(ids) <==> x != "" && exists i :: 0 <= i < |ids| && Trim(ids[i]) == x
    ensures Replay(Purge(events, Unique(ids))).Ok?
    ensures Replay(Purge(events, Unique(ids))).value.memories == Replay(events).value.memories - IdSet(Unique(ids))
  {
    hide Replay, Purge;
    UniqueIs(ids, |ids|);
    PurgePreservesMeaning(events, Unique(ids));
    PurgeErasesExactly(events, Unique(ids));
  }

  lemma KeptStep(before: seq<Event>, last: Event, ids: seq<string>)
    ensures Kept([], ids) == []
    ensures Kept(before + [last], ids) == if Purged(last, ids) then Kept(before, ids) else Kept(before, ids) + [last]
  {
    assert (before + [last])[..|before|] == before;
  }

  lemma {:induction false} KeptAre(events: seq<Event>, ids: seq<string>, e: Event)
    ensures e in Kept(events, ids) <==> e in events && !Purged(e, ids)
  {
    hide *;
    if events == [] {
      KeptStep([], e, ids);
    } else {
      var before, last := events[..|events| - 1], events[|events| - 1];
      assert events == before + [last];
      KeptStep(before, last, ids);
      KeptAre(before, ids, e);
    }
  }

  lemma {:induction false} KeptAll(events: seq<Event>, ids: seq<string>)
    requires forall i :: 0 <= i < |events| ==> !Purged(events[i], ids)
    ensures Kept(events, ids) == events
  {
    hide *;
    if events == [] {
      KeptNone(ids);
    } else {
      var before, last := events[..|events| - 1], events[|events| - 1];
      assert events == before + [last];
      KeptStep(before, last, ids);
      KeptAll(before, ids);
    }
  }

  lemma {:induction false} KeptShorter(events: seq<Event>, ids: seq<string>)
    ensures |Kept(events, ids)| <= |events|
  {
    hide Purged;
    if events != [] {
      KeptShorter(events[..|events| - 1], ids);
    }
  }

  lemma KeptNone(ids: seq<string>)
    ensures Kept([], ids) == []
  {}

  // Nothing that names a purged ID is left, and everything else is left in order.
  lemma PurgeLeavesNoTrace(events: seq<Event>, ids: seq<string>)
    ensures forall e :: e in Kept(events, ids) <==> e in events && !Purged(e, ids)
    ensures |Kept(events, ids)| <= |events|
    ensures (forall e <- events :: !Purged(e, ids)) ==> Kept(events, ids) == events
    ensures forall n :: 0 <= n < |events| ==> Kept(events[..n], ids) <= Kept(events, ids)
  {
    hide Purged, Kept;
    KeptShorter(events, ids);
    forall e ensures e in Kept(events, ids) <==> e in events && !Purged(e, ids) {
      KeptAre(events, ids, e);
    }
    if forall e <- events :: !Purged(e, ids) {
      forall i | 0 <= i < |events| ensures !Purged(events[i], ids) {
        assert events[i] in events;
      }
      KeptAll(events, ids);
    }
    forall n | 0 <= n < |events| ensures Kept(events[..n], ids) <= Kept(events, ids) {
      KeptInOrder(events, ids, n);
    }
  }

  lemma {:induction false} KeptInOrder(events: seq<Event>, ids: seq<string>, n: nat)
    requires n <= |events|
    ensures Kept(events[..n], ids) <= Kept(events, ids)
  {
    hide Purged;
    if n == |events| {
      assert events[..n] == events;
    } else {
      var before := events[..|events| - 1];
      assert before[..n] == events[..n];
      KeptInOrder(before, ids, n);
    }
  }

  datatype Policy = Policy(before: Option<Time>, maxCount: Option<nat>, keepPinned: bool, purgeHistory: bool)

  // Newest first, ties by ID.
  predicate MemoryLe(a: Memory, b: Memory) {
    b.updatedAt < a.updatedAt || (a.updatedAt == b.updatedAt && TextLe(a.id, b.id))
  }

  lemma MemoryOrder()
    ensures Total(MemoryLe)
  {
    forall x, y ensures MemoryLe(x, y) || MemoryLe(y, x) {
      TextTotal(x.id, y.id);
    }
    forall x, y, z | MemoryLe(x, y) && MemoryLe(y, z) ensures MemoryLe(x, z) {
      if x.updatedAt == y.updatedAt == z.updatedAt {
        TextTransitive(x.id, y.id, z.id);
      }
    }
  }

  function SortedMemories(m: map<string, Memory>): seq<Memory> {
    SortedKeysAre(m.Keys);
    var keys := SortedKeys(m.Keys);
    Sort(MemoryLe, ValuesOf(m, keys, |keys|))
  }

  predicate Protected(m: Memory, p: Policy) {
    p.keepPinned && m.kind == "pinned"
  }

  function Candidates(m: map<string, Memory>, p: Policy): seq<Memory> {
    Filter(x => !Protected(x, p), SortedMemories(m))
  }

  // Candidate number i goes: it is too old, or the places are taken.
  predicate Goes(i: nat, m: Memory, p: Policy) {
    (p.before.Some? && m.updatedAt < p.before.value) || (p.maxCount.Some? && i >= p.maxCount.value)
  }

  function Going(c: seq<Memory>, n: nat, p: Policy): seq<string>
    requires n <= |c|
  {
    if n == 0 then [] else Going(c, n - 1, p) + if Goes(n - 1, c[n - 1], p) then [c[n - 1].id] else []
  }

  // The IDs retention removes.
  function Doomed(m: map<string, Memory>, p: Policy): seq<string> {
    var c := Candidates(m, p);
    Going(c, |c|, p)
  }

  ghost predicate KeyedMemories(m: map<string, Memory>) {
    forall k :: k in m ==> m[k].id == k
  }

  // The candidates are the unprotected live memories, each once, newest first.
  lemma CandidatesAre(m: map<string, Memory>, p: Policy)
    requires KeyedMemories(m)
    ensures Sorted(MemoryLe, Candidates(m, p))
    ensures forall x :: x in Candidates(m, p) <==> x.id in m && m[x.id] == x && !Protected(x, p)
    ensures forall i, j :: 0 <= i < j < |Candidates(m, p)| ==> Candidates(m, p)[i].id != Candidates(m, p)[j].id
  {
    var keys := SortedKeys(m.Keys);
    SortedKeysAre(m.Keys);
    var values := ValuesOf(m, keys, |keys|);
    ValuesHold(m, (x: Memory) => x.id, keys);
    MemoryOrder();
    var keep := (x: Memory) => !Protected(x, p);
    FilteredSort(MemoryLe, keep, values);
    var c := Candidates(m, p);
    assert c == Filter(keep, Sort(MemoryLe, values));
    forall i, j | 0 <= i < j < |c| ensures c[i].id != c[j].id {
      assert c[i] in c && c[j] in c;
    }
  }

  // How many of the newest candidates stay.
  function KeepCount(c: seq<Memory>, p: Policy, i: nat): (k: nat)
    requires i <= |c|
    ensures i <= k <= |c|
    decreases |c| - i
  {
    if i == |c| || Goes(i, c[i], p) then i else KeepCount(c, p, i + 1)
  }

  lemma {:induction false} KeepCountIs(c: seq<Memory>, p: Policy, i: nat)
    requires i <= |c| && Sorted(MemoryLe, c)
    ensures var k := KeepCount(c, p, i);
      forall j :: i <= j < |c| ==> (Goes(j, c[j], p) <==> j >= k)
    decreases |c| - i
  {
    if i < |c| {
      if Goes(i, c[i], p) {
        forall j | i <= j < |c| ensures Goes(j, c[j], p) {
          assert i < j ==> MemoryLe(c[i], c[j]);
        }
      } else {
        KeepCountIs(c, p, i + 1);
      }
    }
  }

  lemma {:induction false} GoingAre(c: seq<Memory>, n: nat, p: Policy)
    requires n <= |c|
    ensures forall id :: id in Going(c, n, p) <==> exists i :: 0 <= i < n && Goes(i, c[i], p) && c[i].id == id
  {
    if n > 0 {
      GoingAre(c, n - 1, p);
    }
  }

  // Retention keeps exactly the protected memories and a prefix of the newest-first candidates: at
  // most maxCount of them, none older than `before`, while each candidate past it breaks one of the two.
  lemma RetentionKeepsPrefix(m: map<string, Memory>, p: Policy) returns (k: nat)
    requires KeyedMemories(m)
    ensures var c := Candidates(m, p);
      && k <= |c| && Sorted(MemoryLe, c)
      && (forall x :: x in c <==> x.id in m && m[x.id] == x && !Protected(x, p))
      && (forall id :: id in m ==> (id !in Doomed(m, p) <==> Protected(m[id], p) || m[id] in c[..k]))
      && (forall id :: id in Doomed(m, p) ==> id in m)
      && (p.maxCount.Some? ==> k <= p.maxCount.value)
      && (forall i :: 0 <= i < |c| ==> (Goes(i, c[i], p) <==> i >= k))
  {
    var c := Candidates(m, p);
    CandidatesAre(m, p);
    hide Candidates, Sorted, Going, Protected;
    KeepCountIs(c, p, 0);
    GoingAre(c, |c|, p);
    k := KeepCount(c, p, 0);
    assert k > 0 ==> !Goes(k - 1, c[k - 1], p);
    hide Goes, KeepCount;
    forall id | id in m ensures id !in Doomed(m, p) <==> Protected(m[id], p) || m[id] in c[..k] {
      DoomedIff(m, p, c, k, id);
    }
    forall id | id in Doomed(m, p) ensures id in m {
      var i :| 0 <= i < |c| && Goes(i, c[i], p) && c[i].id == id;
      assert c[i] in c;
    }
  }

  lemma DoomedIff(m: map<string, Memory>, p: Policy, c: seq<Memory>, k: nat, id: string)
    requires KeyedMemories(m) && id in m && k <= |c|
    requires forall x :: x in c <==> x.id in m && m[x.id] == x && !Protected(x, p)
    requires forall i, j :: 0 <= i < j < |c| ==> c[i].id != c[j].id
    requires forall j :: 0 <= j < |c| ==> (Goes(j, c[j], p) <==> j >= k)
    ensures (exists i :: 0 <= i < |c| && Goes(i, c[i], p) && c[i].id == id) <==>
      !(Protected(m[id], p) || m[id] in c[..k])
  {
    if Protected(m[id], p) {
      forall i | 0 <= i < |c| ensures c[i].id != id {
        assert c[i] in c;
      }
    } else {
      var i :| 0 <= i < |c| && c[i] == m[id];
      if i >= k {
        assert Goes(i, c[i], p);
        forall j | 0 <= j < k ensures c[j] != m[id] {}
      } else {
        assert c[..k][i] == m[id];
        forall j | 0 <= j < |c| && c[j].id == id ensures j == i {
          assert c[j] in c;
        }
      }
    }
  }

  // ---- a memory that survives its purge

  const NAMELESS: Memory := Memory("", "semantic", "x", 0, "")

  // An event whose JSON names no memory.
  function NamelessUpsert(): Event {
    Event(1, "evt", "", MemoryUpserted(NAMELESS, false))
  }

  lemma NamelessReplay()
    ensures Replay([NamelessUpsert()]).Ok? && Replay([NamelessUpsert()]).value.memories == map["" := NAMELESS]
    ensures UnnamedLive([NamelessUpsert()])
  {
    var e := NamelessUpsert();
    assert [e][..0] == [];
    assert Fold([]) == Ok(EMPTY);
    assert Fold([e]) == Ok(Apply(EMPTY, e).value.(lastSeq := 1));
    assert UnnamedAfter(e, UnnamedLive([]));
  }

  lemma OnlyOne(c: seq<Memory>)
    requires forall x :: x in c <==> x == NAMELESS
    requires forall i, j :: 0 <= i < j < |c| ==> c[i].id != c[j].id
    ensures c == [NAMELESS]
  {
    assert NAMELESS in c;
    forall i | 0 <= i < |c| ensures c[i] == NAMELESS {
      assert c[i] in c;
    }
    assert |c| > 1 ==> c[0].id != c[1].id;
  }

  lemma NamelessDoomed(p: Policy)
    requires p.maxCount == Some(0)
    ensures Doomed(map["" := NAMELESS], p) == [""]
  {
    var m := map["" := NAMELESS];
    var c := Candidates(m, p);
    CandidatesAre(m, p);
    assert forall x :: x in c <==> x == NAMELESS;
    hide Candidates;
    OnlyOne(c);
    assert Goes(0, c[0], p);
    assert Going(c, 0, p) == [] && Going(c, 1, p) == [] + [""];
  }

  // Retention that purges the history: the policy that keeps no memory dooms a nameless one, but its
  // event names no ID to purge, and the memory is alive again after the replay.
  lemma UnnamedSurvivesPurge(p: Policy)
    requires p.maxCount == Some(0)
    ensures var events := [NamelessUpsert()];
      && Replay(events).Ok? && Doomed(Replay(events).value.memories, p) == [""]
      && Replay(Purge(events, [""])).Ok? && "" in Replay(Purge(events, [""])).value.memories
  {
    hide Replay, Purge, Doomed, UnnamedLive;
    NamelessReplay();
    NamelessDoomed(p);
    PurgePreservesMeaning([NamelessUpsert()], [""]);
  }
}
