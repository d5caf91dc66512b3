/**
 What the events and operations of a project mean (engine.rs, recall.rs), one by one: when an event is
 accepted, what it does to which record, and what a complete operation leaves on disk.
 */
module ProjectLaws {
  import opened Wrappers
  import opened Ordering
  import opened Text
  import opened EventLogs
  import opened ProjectStates
  import opened MemoryHistory
  import opened ProjectDisk

  // ---- trimmed and unique strings

  lemma WhiteLaw(c: char)
    ensures IsWhite(c) <==>
      9 <= c as int <= 13 || c as int in {32, 133, 160, 5760, 8232, 8233, 8239, 8287, 12288} || 8192 <= c as int <= 8202
  {}

  predicate AllWhite(s: string) {
    forall c <- s :: IsWhite(c)
  }

  predicate NoWhiteEnds(s: string) {
    s != "" ==> !IsWhite(s[0]) && !IsWhite(s[|s| - 1])
  }

  lemma {:induction false} TrimStartLaw(a: string, t: string)
    requires AllWhite(a) && (t != "" ==> !IsWhite(t[0]))
    ensures TrimStart(a + t) == t
  {
    if a == "" {
      assert a + t == t;
    } else {
      assert a[0] in a && (a + t)[1..] == a[1..] + t;
      assert forall c <- a[1..] :: c in a;
      TrimStartLaw(a[1..], t);
    }
  }

  lemma {:induction false} TrimEndLaw(t: string, b: string)
    requires AllWhite(b) && (t != "" ==> !IsWhite(t[|t| - 1]))
    ensures TrimEnd(t + b) == t
  {
    if b == "" {
      assert t + b == t;
    } else {
      var n := |b| - 1;
      assert b[n] in b && (t + b)[..|t + b| - 1] == t + b[..n];
      assert forall c <- b[..n] :: c in b;
      TrimEndLaw(t, b[..n]);
    }
  }

  // Trimming takes the white space around a text away, and nothing else.
  lemma TrimLaw(a: string, t: string, b: string)
    requires AllWhite(a) && AllWhite(b) && NoWhiteEnds(t)
    ensures Trim(a + t + b) == t
  {
    if t == "" {
      assert a + t + b == a + b + "";
      assert forall c <- a + b :: c in a || c in b;
      TrimStartLaw(a + b, "");
    } else {
      assert a + t + b == a + (t + b);
      TrimStartLaw(a, t + b);
      TrimEndLaw(t, b);
    }
  }

  // A value as it is stored: without white space around it, and not empty.
  predicate Proper(x: string) {
    x != "" && NoWhiteEnds(x)
  }

  lemma ProperTrims(x: string)
    requires Proper(x)
    ensures Trim(x) == x
  {
    TrimLaw("", x, "");
    assert "" + x + "" == x;
  }

  lemma {:induction false} UniqueUpToLaw(s: seq<string>, n: nat)
    requires n <= |s|
    ensures Distinct(UniqueUpTo(s, n))
    ensures forall x :: x in UniqueUpTo(s, n) <==> x != "" && exists i :: 0 <= i < n && Trim(s[i]) == x
  {
    if n > 0 {
      UniqueUpToLaw(s, n - 1);
      hide Trim;
    }
  }

  lemma {:induction false} UniqueProper(s: seq<string>, n: nat)
    requires n <= |s| && Distinct(s) && forall x <- s :: Proper(x)
    ensures UniqueUpTo(s, n) == s[..n]
  {
    if n > 0 {
      UniqueProper(s, n - 1);
      ProperTrims(s[n - 1]);
      assert s[..n] == s[..n - 1] + [s[n - 1]];
    }
  }

  lemma {:induction false} UniquePrefix(s: seq<string>, d: string, n: nat)
    requires n <= |s|
    ensures UniqueUpTo(s + [d], n) == UniqueUpTo(s, n)
  {
    if n > 0 {
      UniquePrefix(s, d, n - 1);
    }
  }

  // What adding a value to a list leaves: the trimmed, nonempty values once each; a list of proper
  // values stays as it is and gets the new one at its end unless it has it.
  lemma AddedLaw(s: seq<string>, d: string)
    ensures var r := Unique(s + [d]);
      && Distinct(r) && (Trim(d) != "" ==> Trim(d) in r) && (forall x <- s :: Trim(x) != "" ==> Trim(x) in r)
      && (forall x <- r :: x == Trim(d) || exists y <- s :: x == Trim(y))
      && (Distinct(s) && (forall x <- s :: Proper(x)) ==> r == if Trim(d) in s + [""] then s else s + [Trim(d)])
  {
    hide Trim, Proper;
    var all := s + [d];
    UniqueUpToLaw(all, |all|);
    assert all[|s|] == d && forall i :: 0 <= i < |s| ==> all[i] == s[i];
    forall x | x in s && Trim(x) != "" ensures Trim(x) in Unique(all) {
      var i :| 0 <= i < |s| && s[i] == x;
      assert all[i] == x;
    }
    if Distinct(s) && forall x <- s :: Proper(x) {
      AddedProper(s, d);
    }
  }

  lemma AddedProper(s: seq<string>, d: string)
    requires Distinct(s) && forall x <- s :: Proper(x)
    ensures Unique(s + [d]) == if Trim(d) in s + [""] then s else s + [Trim(d)]
  {
    hide Trim, Proper;
    UniquePrefix(s, d, |s|);
    UniqueProper(s, |s|);
    assert s[..|s|] == s && (s + [d])[|s|] == d;
  }

  lemma {:induction false} FilterSplits<T>(p: T -> bool, a: seq<T>, b: seq<T>)
    ensures Filter(p, a + b) == Filter(p, a) + Filter(p, b)
  {
    if a == [] {
      assert a + b == b;
    } else {
      assert (a + b)[1..] == a[1..] + b;
      FilterSplits(p, a[1..], b);
    }
  }

  lemma {:induction false} FilterAll<T>(p: T -> bool, s: seq<T>)
    requires forall x <- s :: p(x)
    ensures Filter(p, s) == s
  {
    if s != [] {
      assert s[0] in s && forall x <- s[1..] :: x in s;
      FilterAll(p, s[1..]);
    }
  }

  // What removing a value leaves: everything else in its order.
  lemma RemovedLaw(a: seq<string>, d: string, b: seq<string>)
    requires d !in a && d !in b
    ensures Without(a, d) == a && Without(a + [d] + b, d) == a + b
  {
    var p := (y: string) => y != d;
    FilterAll(p, a);
    FilterAll(p, b);
    FilterSplits(p, a + [d], b);
    FilterMore(p, a, d);
    hide Filter;
    assert Without(a + [d] + b, d) == Filter(p, a + [d] + b);
  }

  lemma RemovedIn(s: seq<string>, d: string)
    ensures forall x :: x in Without(s, d) <==> x in s && x != d
  {
    FilterIn((y: string) => y != d, s);
  }

  // ---- events

  // An event that changes the one task `id` into `t`.
  ghost predicate Changes(s: State, ev: Event, id: string, t: Task) {
    id in s.tasks && Apply(s, ev) == Ok(s.(tasks := s.tasks[id := t]))
  }

  // A change of a task that is not there, or without its time, is refused.
  ghost predicate Refuses(s: State, ev: Event, id: string, at: Option<Time>) {
    && (id !in s.tasks ==> Apply(s, ev) == Err(NotFound(id)))
    && (id in s.tasks && at == None ==> Apply(s, ev) == Err(Json))
  }

  lemma ClaimLaw(s: State, ev: Event, id: string, actor: string, at: Option<Time>)
    requires ev.payload == TaskClaimed(id, actor, at)
    ensures Refuses(s, ev, id, at)
    ensures id in s.tasks && at.Some? ==>
      Changes(s, ev, id, s.tasks[id].(
        assignee := actor, status := "in_progress", updatedAt := at.value, closedAt := None))
  {}

  // A task closed without its record gets the status and the time; a reason is kept as a comment.
  lemma CloseLaw(s: State, ev: Event, id: string, reason: string, at: Option<Time>, given: Option<Task>)
    requires ev.payload == TaskClosed(id, reason, at, given) && (given == None || given.value.id == "")
    ensures Refuses(s, ev, id, at)
    ensures id in s.tasks && at.Some? ==>
      var t := s.tasks[id].(status := "closed", updatedAt := at.value, closedAt := at);
      var note := Comment("comment_" + ev.eventId, ev.actor, "Closed: " + reason, at.value);
      Changes(s, ev, id, if reason == "" then t else t.(comments := t.comments + [note]))
  {}

  // An event that carries a whole task with an ID stores it under that ID.
  lemma WholeTaskLaw(s: State, ev: Event, t: Task)
    requires ev.payload == TaskCreated(t) || (t.id != "" &&
      (ev.payload == TaskUpdated(Some(t)) || (ev.payload.TaskClosed? && ev.payload.replacement == Some(t))))
    ensures Apply(s, ev) == Ok(s.(tasks := s.tasks[t.id := t]))
  {}

  lemma CommentLaw(s: State, ev: Event, id: string, c: Comment)
    requires ev.payload == CommentAdded(id, c)
    ensures id !in s.tasks ==> Apply(s, ev) == Err(NotFound(id))
    ensures id in s.tasks ==>
      Changes(s, ev, id, s.tasks[id].(comments := s.tasks[id].comments + [c], updatedAt := c.createdAt))
  {}

  // After an addition the dependency is there, once, and the old ones stay where they were.
  lemma DependencyAddedLaw(s: State, ev: Event, id: string, d: string, at: Option<Time>)
    requires ev.payload == DependencyAdded(id, d, at)
    ensures Refuses(s, ev, id, at)
    ensures id in s.tasks && at.Some? ==>
      Apply(s, ev).Ok? && id in Apply(s, ev).value.tasks &&
      var (was, now) := (s.tasks[id].dependsOn, Apply(s, ev).value.tasks[id].dependsOn);
      && Changes(s, ev, id, s.tasks[id].(dependsOn := now, updatedAt := at.value))
      && Distinct(now) && (Trim(d) != "" ==> Trim(d) in now) && (forall x <- was :: Trim(x) != "" ==> Trim(x) in now)
      && (forall x <- now :: x == Trim(d) || exists y <- was :: x == Trim(y))
      && (Distinct(was) && (forall x <- was :: Proper(x)) ==>
        now == if Trim(d) in was + [""] then was else was + [Trim(d)])
  {
    hide Trim, Unique;
    if id in s.tasks { AddedLaw(s.tasks[id].dependsOn, d); }
  }

  // After a removal the dependency is gone, and the others are there in their order.
  lemma DependencyRemovedLaw(
    s: State, ev: Event, id: string, d: string, at: Option<Time>, a: seq<string>, b: seq<string>)
    requires ev.payload == DependencyRemoved(id, d, at) && d !in a && d !in b
    ensures Refuses(s, ev, id, at)
    ensures id in s.tasks && at.Some? ==>
      Apply(s, ev).Ok? && id in Apply(s, ev).value.tasks &&
      var (was, now) := (s.tasks[id].dependsOn, Apply(s, ev).value.tasks[id].dependsOn);
      && Changes(s, ev, id, s.tasks[id].(dependsOn := now, updatedAt := at.value))
      && (forall x :: x in now <==> x in was && x != d)
      && (was == a ==> now == a) && (was == a + [d] + b ==> now == a + b)
  {
    hide Without;
    RemovedLaw(a, d, b);
    if id in s.tasks { RemovedIn(s.tasks[id].dependsOn, d); }
  }

  // Memories and summaries are stored under their IDs and deleted by them.
  lemma MemoryLaw(s: State, ev: Event, m: Memory, id: string)
    ensures ev.payload == MemoryUpserted(m, true) ==> Apply(s, ev) == Ok(s.(memories := s.memories[m.id := m]))
    ensures ev.payload == MemoryUpserted(m, false) ==>
      Apply(s, ev) == Ok(s.(memories := s.memories["" := m.(id := "")]))
    ensures ev.payload == MemoryDeleted(id, true) ==> Apply(s, ev) == Ok(s.(memories := s.memories - {id}))
    ensures ev.payload == MemoryDeleted(id, false) ==> Apply(s, ev) == Ok(s.(memories := s.memories - {""}))
  {
    assert m.id == m.(id := m.id).id && m.(id := m.id) == m;
  }

  lemma OtherEventsLaw(s: State, ev: Event)
    ensures ev.payload.SessionSaved? ==>
      Apply(s, ev) == Ok(s.(sessions := s.sessions[ev.payload.session.id := ev.payload.session]))
    ensures ev.payload.ProjectInitialized? && ev.payload.project.schemaVersion == 1 ==>
      Apply(s, ev) == Ok(s.(project := ev.payload.project))
    ensures ev.payload.ProjectInitialized? && ev.payload.project.schemaVersion != 1 ==>
      Apply(s, ev) == Err(Invalid("unsupported project schema version"))
    ensures ev.payload == TaskUpdated(None) || ev.payload.Other? ==> Apply(s, ev) == Ok(s)
    ensures ev.payload.TaskUpdated? && ev.payload.replacement.Some? && ev.payload.replacement.value.id == "" ==>
      Apply(s, ev) == Ok(s)
    ensures ev.payload.Malformed? ==> Apply(s, ev) == Err(Json)
  {}

  // A replay applies the events one after another, keeps the highest number, and links at its end.
  lemma ReplayLaw(events: LogEvents, ev: Event)
    ensures Replay([]) == Ok(State(Project(0, "", "", 0, 0), map[], map[], map[], 0))
    ensures Replay(events + [ev]).Ok? <==> Replay(events).Ok? && Apply(Replay(events).value, ev).Ok?
    ensures Replay(events + [ev]).Ok? ==>
      var (s, t) := (Replay(events).value, Replay(events + [ev]).value);
      && SameButBlocks(t.(lastSeq := s.lastSeq), Apply(s, ev).value)
      && t.lastSeq == if ev.seqNo > s.lastSeq then ev.seqNo else s.lastSeq
  {
    EmptyReplay();
    hide Apply, Relinked, Fold, Bare;
    ReplayFails(events, ev);
    if Replay(events).Ok? {
      IncrementalIsReplay(events, ev);
      if Replay(events + [ev]).Ok? {
        RelinkedKeepsTheRest(Apply(Replay(events).value, ev).value);
        AppliesKeepSeq(events, ev);
      }
    }
  }

  lemma ReplayFails(events: LogEvents, ev: Event)
    ensures Replay(events).Err? ==> Replay(events + [ev]).Err?
  {
    hide Apply;
    assert (events + [ev])[..|events|] == events;
  }

  lemma AppliesKeepSeq(events: LogEvents, ev: Event)
    requires Replay(events).Ok? && Replay(events + [ev]).Ok? && Apply(Replay(events).value, ev).Ok?
    ensures Apply(Replay(events).value, ev).value.lastSeq == Replay(events).value.lastSeq
    ensures var last := Replay(events).value.lastSeq;
      Replay(events + [ev]).value.lastSeq == if ev.seqNo > last then ev.seqNo else last
  {
    hide Apply, Relinked;
    assert (events + [ev])[..|events|] == events;
    ApplyKeepsSeq(Fold(events).value, ev);
    ApplyKeepsSeq(Replay(events).value, ev);
  }

  lemma EmptyReplay()
    ensures Replay([]) == Ok(State(Project(0, "", "", 0, 0), map[], map[], map[], 0))
  {
    NothingLinked();
    assert Fold([]) == Ok(EMPTY);
    assert RecomputeBlocks(EMPTY) == EMPTY;
    assert Replay([]) == Ok(RecomputeBlocks(EMPTY));
  }

  lemma NothingLinked()
    ensures Relinked(map[]) == map[]
  {
    assert Relinked(map[]).Keys == {};
  }

  // ---- retention

  predicate Newer(a: Memory, b: Memory) {
    a.updatedAt > b.updatedAt || (a.updatedAt == b.updatedAt && a.id != b.id && TextLe(a.id, b.id))
  }

  // Text order: a proper prefix or, at the first difference, the smaller character comes first.
  lemma {:induction false} TextOrderLaw(a: string, b: string, n: nat)
    requires n <= |a| && n <= |b| && a[..n] == b[..n]
    ensures n == |a| ==> TextLe(a, b)
    ensures n == |b| < |a| ==> !TextLe(a, b)
    ensures n < |a| && n < |b| && a[n] != b[n] ==> (TextLe(a, b) <==> a[n] < b[n])
  {
    if n > 0 {
      assert a[0] == a[..n][0] == b[..n][0] == b[0];
      assert a[1..][..n - 1] == a[..n][1..] && b[1..][..n - 1] == b[..n][1..];
      TextOrderLaw(a[1..], b[1..], n - 1);
    }
  }

  // The live memories that a retention may remove and that are newer than a given one.
  function NewerIds(m: map<string, Memory>, keepPinned: bool, x: Memory): set<string> {
    set id | id in m && !(keepPinned && m[id].kind == "pinned") && Newer(m[id], x)
  }

  // Retention removes a memory if it is not protected, and either too old or has too many newer ones.
  lemma RetentionLaw(m: map<string, Memory>, p: Policy, id: string)
    requires (forall k :: k in m ==> m[k].id == k) && id in m
    ensures id in Doomed(m, p) <==>
      && !(p.keepPinned && m[id].kind == "pinned")
      && ((p.before.Some? && m[id].updatedAt < p.before.value)
        || (p.maxCount.Some? && |NewerIds(m, p.keepPinned, m[id])| >= p.maxCount.value))
  {
    hide Candidates, Going, Doomed, NewerIds;
    var c := Candidates(m, p);
    CandidatesAre(m, p);
    GoingAre(c, |c|, p);
    assert Doomed(m, p) == Going(c, |c|, p) by { DoomedIs(m, p); }
    if !(p.keepPinned && m[id].kind == "pinned") {
      assert m[id] in c;
      var i :| 0 <= i < |c| && c[i] == m[id];
      RankIs(m, p, c, i);
    } else {
      forall i | 0 <= i < |c| ensures c[i].id != id { assert c[i] in c; }
    }
  }

  lemma DoomedIs(m: map<string, Memory>, p: Policy)
    ensures Doomed(m, p) == Going(Candidates(m, p), |Candidates(m, p)|, p)
  {}

  // The place of a candidate is the number of newer ones.
  lemma RankIs(m: map<string, Memory>, p: Policy, c: seq<Memory>, i: nat)
    requires (forall k :: k in m ==> m[k].id == k) && i < |c| && Sorted(MemoryLe, c)
    requires forall x :: x in c <==> x.id in m && m[x.id] == x && !Protected(x, p)
    requires forall i, j :: 0 <= i < j < |c| ==> c[i].id != c[j].id
    ensures |NewerIds(m, p.keepPinned, c[i])| == i
  {
    var before := Ids(c[..i]);
    forall id | id in before ensures id in NewerIds(m, p.keepPinned, c[i]) {
      var j :| 0 <= j < i && c[..i][j].id == id;
      assert c[j] in c && MemoryLe(c[j], c[i]);
    }
    forall id | id in NewerIds(m, p.keepPinned, c[i]) ensures id in before {
      assert m[id] in c;
      var j :| 0 <= j < |c| && c[j] == m[id];
      TextTotal(c[i].id, c[j].id);
      assert j < i by {
        assert i < j ==> MemoryLe(c[i], c[j]);
      }
      assert c[..i][j] == m[id];
    }
    assert before == NewerIds(m, p.keepPinned, c[i]);
    FirstIds(c, i);
  }

  function Ids(c: seq<Memory>): set<string> {
    set x | x in c :: x.id
  }

  lemma {:induction false} FirstIds(c: seq<Memory>, n: nat)
    requires n <= |c| && forall i, j :: 0 <= i < j < |c| ==> c[i].id != c[j].id
    ensures |Ids(c[..n])| == n
  {
    if n > 0 {
      FirstIds(c, n - 1);
      FirstIdsMore(c, n);
    }
  }

  lemma FirstIdsMore(c: seq<Memory>, n: nat)
    requires 0 < n <= |c| && forall i, j :: 0 <= i < j < |c| ==> c[i].id != c[j].id
    ensures |Ids(c[..n])| == |Ids(c[..n - 1])| + 1
  {
    assert c[..n] == c[..n - 1] + [c[n - 1]];
    forall x | x in c[..n - 1] ensures x.id != c[n - 1].id {
      var j :| 0 <= j < n - 1 && c[j] == x;
    }
    assert Ids(c[..n]) == Ids(c[..n - 1]) + {c[n - 1].id};
  }
}
