/**
 The state of a project as the replay of its event log (engine.rs). A payload is the record its
 JSON decodes to; an event whose payload does not decode carries Malformed.
 */
module ProjectStates {
  import opened Wrappers
  import opened Ordering
  import opened Text

  type Time = int

  const SCHEMA_VERSION: int := 1

  datatype Error = Invalid(reason: string) | NotFound(id: string) | Json

  datatype Project = Project(schemaVersion: int, projectId: string, workdir: string, createdAt: Time, updatedAt: Time)

  datatype Comment = Comment(id: string, actor: string, body: string, createdAt: Time)

  // `details` stands for the fields no operation here looks at.
  datatype Task = Task(
    id: string, status: string, priority: int, assignee: string, dependsOn: seq<string>, blocks: seq<string>,
    labels: seq<string>, comments: seq<Comment>, updatedAt: Time, closedAt: Option<Time>, details: string)

  datatype Memory = Memory(id: string, kind: string, content: string, updatedAt: Time, details: string)
  datatype Session = Session(id: string, summary: string, updatedAt: Time)

  datatype Payload =
    | ProjectInitialized(project: Project)
    | TaskCreated(task: Task)
    | TaskUpdated(replacement: Option<Task>)
    | TaskClaimed(id: string, actor: string, at: Option<Time>)
    | TaskClosed(id: string, reason: string, at: Option<Time>, replacement: Option<Task>)
    | CommentAdded(id: string, comment: Comment)
    | DependencyAdded(id: string, dependsOn: string, at: Option<Time>)
    | DependencyRemoved(id: string, dependsOn: string, at: Option<Time>)
    | MemoryUpserted(memory: Memory, named: bool)   // not named: the JSON has no "id", which then reads as ""
    | MemoryDeleted(id: string, named: bool)
    | SessionSaved(session: Session)
    | Other(kind: string)
    | Malformed(kind: string, memoryId: Option<string>)

  datatype Event = Event(seqNo: int, eventId: string, actor: string, payload: Payload)

  datatype State = State(
    project: Project, tasks: map<string, Task>, memories: map<string, Memory>,
    sessions: map<string, Session>, lastSeq: int)

  const EMPTY_PROJECT: Project := Project(0, "", "", 0, 0)
  const EMPTY: State := State(EMPTY_PROJECT, map[], map[], map[], 0)

  function Named(t: Option<Task>): bool {
    t.Some? && t.value.id != ""
  }

  function At(at: Option<Time>): Result<Time, Error> {
    if at.None? then Err(Json) else Ok(at.value)
  }

  function Without(s: seq<string>, x: string): seq<string> {
    Filter(y => y != x, s)
  }

  // The whole task an event carries, if it replaces or creates one.
  function Replacement(ev: Event): Option<Task> {
    match ev.payload
    case TaskCreated(t) => Some(t)
    case TaskUpdated(t) => if Named(t) then t else None
    case TaskClosed(_, _, _, t) => if Named(t) then t else None
    case _ => None
  }

  // The task an event changes in place, if it does.
  function Target(ev: Event): Option<string> {
    match ev.payload
    case TaskClaimed(id, _, _) => Some(id)
    case TaskClosed(id, _, _, t) => if Named(t) then None else Some(id)
    case CommentAdded(id, _) => Some(id)
    case DependencyAdded(id, _, _) => Some(id)
    case DependencyRemoved(id, _, _) => Some(id)
    case _ => None
  }

  // The in-place change.
  function Edit(t: Task, ev: Event): Result<Task, Error> {
    match ev.payload
    case TaskClaimed(_, actor, at) =>
      var now :- At(at);
      Ok(t.(assignee := actor, status := "in_progress", updatedAt := now, closedAt := None))
    case TaskClosed(_, reason, at, _) =>
      var now :- At(at);
      var note := Comment("comment_" + ev.eventId, ev.actor, "Closed: " + reason, now);
      Ok(t.(status := "closed", updatedAt := now, closedAt := Some(now),
            comments := if reason == "" then t.comments else t.comments + [note]))
    case CommentAdded(_, c) => Ok(t.(updatedAt := c.createdAt, comments := t.comments + [c]))
    case DependencyAdded(_, d, at) =>
      var now :- At(at);
      Ok(t.(dependsOn := Unique(t.dependsOn + [d]), updatedAt := now))
    case DependencyRemoved(_, d, at) =>
      var now :- At(at);
      Ok(t.(dependsOn := Without(t.dependsOn, d), updatedAt := now))
    case _ => Ok(t)
  }

  // The task an event writes and the key it writes it under, if it writes one.
  function TaskEffect(tasks: map<string, Task>, ev: Event): Result<Option<(string, Task)>, Error> {
    if Replacement(ev).Some? then Ok(Some((Replacement(ev).value.id, Replacement(ev).value)))
    else if Target(ev).None? then Ok(None)
    else if Target(ev).value !in tasks then Err(NotFound(Target(ev).value))
    else
      var t :- Edit(tasks[Target(ev).value], ev);
      Ok(Some((Target(ev).value, t)))
  }

  function Write(tasks: map<string, Task>, w: Option<(string, Task)>): map<string, Task> {
    if w.None? then tasks else tasks[w.value.0 := w.value.1]
  }

  // An absent ID decodes to the empty string.
  function Key(id: string, named: bool): string {
    if named then id else ""
  }

  function Apply(s: State, ev: Event): Result<State, Error> {
    match ev.payload
    case ProjectInitialized(project) =>
      if project.schemaVersion != SCHEMA_VERSION then Err(Invalid("unsupported project schema version"))
      else Ok(s.(project := project))
    case MemoryUpserted(m, named) =>
      var id := Key(m.id, named);
      Ok(s.(memories := s.memories[id := m.(id := id)]))
    case MemoryDeleted(id, named) => Ok(s.(memories := s.memories - {Key(id, named)}))
    case SessionSaved(x) => Ok(s.(sessions := s.sessions[x.id := x]))
    case Malformed(_, _) => Err(Json)
    case _ =>
      var w :- TaskEffect(s.tasks, ev);
      Ok(s.(tasks := Write(s.tasks, w)))
  }

  function Max(a: int, b: int): int {
    if a >= b then a else b
  }

  // The events applied in order, without the reverse links.
  function Fold(events: seq<Event>): Result<State, Error> {
    if events == [] then Ok(EMPTY)
    else
      var ev := events[|events| - 1];
      var s :- Fold(events[..|events| - 1]);
      var t :- Apply(s, ev);
      Ok(t.(lastSeq := Max(t.lastSeq, ev.seqNo)))
  }

  // All (task, dependency) pairs: tasks in key order, dependencies in list order.
  function LinksOf(id: string, deps: seq<string>, n: nat): seq<(string, string)>
    requires n <= |deps|
  {
    if n == 0 then [] else LinksOf(id, deps, n - 1) + [(id, deps[n - 1])]
  }

  function Links(tasks: map<string, Task>, keys: seq<string>, n: nat): seq<(string, string)>
    requires n <= |keys| && forall k :: k in keys ==> k in tasks
  {
    if n == 0 then []
    else
      var t := tasks[keys[n - 1]];
      Links(tasks, keys, n - 1) + LinksOf(t.id, t.dependsOn, |t.dependsOn|)
  }

  function AllLinks(tasks: map<string, Task>): seq<(string, string)> {
    SortedKeysAre(tasks.Keys);
    var keys := SortedKeys(tasks.Keys);
    Links(tasks, keys, |keys|)
  }

  // The tasks that some of the first n links say depend on `k`, first mentions only.
  function BlocksFrom(links: seq<(string, string)>, n: nat, k: string): seq<string>
    requires n <= |links|
  {
    if n == 0 then []
    else
      var done := BlocksFrom(links, n - 1, k);
      var (id, dep) := links[n - 1];
      if dep == k && id !in done then done + [id] else done
  }

  function Relinked(tasks: map<string, Task>): map<string, Task> {
    var links := AllLinks(tasks);
    map k | k in tasks :: tasks[k].(blocks := BlocksFrom(links, |links|, k))
  }

  function RecomputeBlocks(s: State): State {
    s.(tasks := Relinked(s.tasks))
  }

  function Replay(events: seq<Event>): Result<State, Error> {
    var s :- Fold(events);
    Ok(RecomputeBlocks(s))
  }

  // Map keys are the records' own IDs.
  ghost predicate Keyed(s: State) {
    && (forall k :: k in s.tasks ==> s.tasks[k].id == k)
    && (forall k :: k in s.memories ==> s.memories[k].id == k)
    && (forall k :: k in s.sessions ==> s.sessions[k].id == k)
  }

  lemma EditKeepsId(t: Task, ev: Event)
    ensures Edit(t, ev).Ok? ==> Edit(t, ev).value.id == t.id
  {}

  lemma TaskEffectKeyed(tasks: map<string, Task>, ev: Event)
    requires forall k :: k in tasks ==> tasks[k].id == k
    ensures var w := TaskEffect(tasks, ev); w.Ok? && w.value.Some? ==> w.value.value.1.id == w.value.value.0
  {
    hide Edit, Replacement, Target;
    if Target(ev).Some? && Target(ev).value in tasks {
      EditKeepsId(tasks[Target(ev).value], ev);
    }
  }

  lemma WriteKeyed(tasks: map<string, Task>, w: Option<(string, Task)>)
    requires forall k :: k in tasks ==> tasks[k].id == k
    requires w.Some? ==> w.value.1.id == w.value.0
    ensures forall k :: k in Write(tasks, w) ==> Write(tasks, w)[k].id == k
  {}

  lemma ApplyKeyed(s: State, ev: Event)
    requires Keyed(s) && Apply(s, ev).Ok?
    ensures Keyed(Apply(s, ev).value)
  {
    hide TaskEffect, Write;
    TaskEffectKeyed(s.tasks, ev);
    if TaskEffect(s.tasks, ev).Ok? {
      WriteKeyed(s.tasks, TaskEffect(s.tasks, ev).value);
    }
  }

  lemma {:induction false} FoldKeyed(events: seq<Event>)
    requires Fold(events).Ok?
    ensures Keyed(Fold(events).value)
  {
    if events != [] {
      var n := |events| - 1;
      FoldKeyed(events[..n]);
      ApplyKeyed(Fold(events[..n]).value, events[n]);
    }
  }

  lemma {:induction false} LinksOfAre(id: string, deps: seq<string>, n: nat)
    requires n <= |deps|
    ensures forall l :: l in LinksOf(id, deps, n) <==> l.0 == id && l.1 in deps[..n]
  {
    if n > 0 {
      LinksOfAre(id, deps, n - 1);
      assert deps[..n] == deps[..n - 1] + [deps[n - 1]];
    }
  }

  lemma {:induction false} LinksAre(tasks: map<string, Task>, keys: seq<string>, n: nat, l: (string, string))
    requires n <= |keys| && forall k :: k in keys ==> k in tasks
    ensures l in Links(tasks, keys, n) <==>
      exists k :: k in keys[..n] && l.0 == tasks[k].id && l.1 in tasks[k].dependsOn
  {
    if n > 0 {
      LinksAre(tasks, keys, n - 1, l);
      var t := tasks[keys[n - 1]];
      LinksOfAre(t.id, t.dependsOn, |t.dependsOn|);
      assert t.dependsOn[..|t.dependsOn|] == t.dependsOn;
      assert keys[..n] == keys[..n - 1] + [keys[n - 1]];
    }
  }

  lemma {:induction false} BlocksFromAre(links: seq<(string, string)>, n: nat, k: string)
    requires n <= |links|
    ensures forall x :: x in BlocksFrom(links, n, k) <==> (x, k) in links[..n]
    ensures forall i, j :: 0 <= i < j < |BlocksFrom(links, n, k)| ==>
      BlocksFrom(links, n, k)[i] != BlocksFrom(links, n, k)[j]
  {
    if n > 0 {
      BlocksFromAre(links, n - 1, k);
      assert links[..n] == links[..n - 1] + [links[n - 1]];
      forall x ensures x in BlocksFrom(links, n, k) <==> (x, k) in links[..n] {
        assert (x, k) in links[..n] <==> (x, k) in links[..n - 1] || (x, k) == links[n - 1];
      }
    }
  }

  // Blocks is the inverse of depends_on over the existing tasks, without duplicates.
  ghost predicate BlocksInverse(tasks: map<string, Task>) {
    forall k :: k in tasks ==>
      && (forall x :: x in tasks[k].blocks <==> x in tasks && k in tasks[x].dependsOn)
      && (forall i, j :: 0 <= i < j < |tasks[k].blocks| ==> tasks[k].blocks[i] != tasks[k].blocks[j])
  }

  lemma RelinkedInverse(s: State)
    requires Keyed(s)
    ensures BlocksInverse(RecomputeBlocks(s).tasks)
  {
    hide SortedKeys, Links, LinksOf, BlocksFrom;
    var tasks := s.tasks;
    var links := AllLinks(tasks);
    var keys := SortedKeys(tasks.Keys);
    SortedKeysAre(tasks.Keys);
    assert keys[..|keys|] == keys && links[..|links|] == links;
    forall k | k in tasks
      ensures forall x :: x in BlocksFrom(links, |links|, k) <==> x in tasks && k in tasks[x].dependsOn
    {
      BlocksFromAre(links, |links|, k);
      forall x ensures (x, k) in links <==> x in tasks && k in tasks[x].dependsOn {
        LinksAre(tasks, keys, |keys|, (x, k));
      }
    }
    forall k | k in tasks {
      BlocksFromAre(links, |links|, k);
    }
  }

  // In every state a replay returns, blocks is the exact inverse of depends_on.
  lemma ReplayBlocksInverse(events: seq<Event>)
    requires Replay(events).Ok?
    ensures BlocksInverse(Replay(events).value.tasks) && Keyed(Replay(events).value)
  {
    FoldKeyed(events);
    RelinkedInverse(Fold(events).value);
  }

  function Bare(tasks: map<string, Task>): map<string, Task> {
    map k | k in tasks :: tasks[k].(blocks := [])
  }

  // Equal but for the reverse links.
  ghost predicate SameButBlocks(s: State, t: State) {
    s.project == t.project && Bare(s.tasks) == Bare(t.tasks) && s.memories == t.memories
    && s.sessions == t.sessions && s.lastSeq == t.lastSeq
  }

  lemma BareTask(a: map<string, Task>, b: map<string, Task>)
    requires Bare(a) == Bare(b)
    ensures a.Keys == b.Keys && forall k :: k in a ==> a[k].(blocks := []) == b[k].(blocks := [])
  {
    assert a.Keys == Bare(a).Keys && b.Keys == Bare(b).Keys;
    forall k | k in a ensures a[k].(blocks := []) == b[k].(blocks := []) {
      assert Bare(a)[k] == Bare(b)[k];
    }
  }

  lemma SameBare(a: map<string, Task>, b: map<string, Task>)
    requires a.Keys == b.Keys && forall k :: k in a ==> a[k].(blocks := []) == b[k].(blocks := [])
    ensures Bare(a) == Bare(b)
  {}

  lemma EditIgnoresBlocks(t: Task, u: Task, ev: Event)
    requires t.(blocks := []) == u.(blocks := [])
    ensures Edit(t, ev).Ok? == Edit(u, ev).Ok?
    ensures Edit(t, ev).Ok? ==> Edit(t, ev).value.(blocks := []) == Edit(u, ev).value.(blocks := [])
  {}

  lemma WriteIgnoresBlocks(a: map<string, Task>, b: map<string, Task>, k: string, t: Task, u: Task)
    requires Bare(a) == Bare(b) && t.(blocks := []) == u.(blocks := [])
    ensures Bare(a[k := t]) == Bare(b[k := u])
  {
    BareTask(a, b);
    SameBare(a[k := t], b[k := u]);
  }

  lemma TaskEffectIgnoresBlocks(a: map<string, Task>, b: map<string, Task>, ev: Event)
    requires Bare(a) == Bare(b)
    ensures TaskEffect(a, ev).Ok? == TaskEffect(b, ev).Ok?
    ensures TaskEffect(a, ev).Ok? ==>
      Bare(Write(a, TaskEffect(a, ev).value)) == Bare(Write(b, TaskEffect(b, ev).value))
  {
    hide Edit, Replacement, Target, Bare;
    BareTask(a, b);
    if Replacement(ev).Some? {
      var u := Replacement(ev).value;
      WriteIgnoresBlocks(a, b, u.id, u, u);
    } else if Target(ev).Some? && Target(ev).value in a {
      var k := Target(ev).value;
      EditIgnoresBlocks(a[k], b[k], ev);
      if Edit(a[k], ev).Ok? {
        WriteIgnoresBlocks(a, b, k, Edit(a[k], ev).value, Edit(b[k], ev).value);
      }
    }
  }

  // No event looks at the reverse links.
  lemma ApplyIgnoresBlocks(s: State, t: State, ev: Event)
    requires SameButBlocks(s, t)
    ensures Apply(s, ev).Ok? == Apply(t, ev).Ok?
    ensures Apply(s, ev).Ok? ==> SameButBlocks(Apply(s, ev).value, Apply(t, ev).value)
  {
    hide TaskEffect, Write, Bare;
    TaskEffectIgnoresBlocks(s.tasks, t.tasks, ev);
  }

  lemma {:induction false} LinksIgnoreBlocks(a: map<string, Task>, b: map<string, Task>, keys: seq<string>, n: nat)
    requires Bare(a) == Bare(b)
    requires n <= |keys| && (forall k :: k in keys ==> k in a) && (forall k :: k in keys ==> k in b)
    ensures Links(a, keys, n) == Links(b, keys, n)
  {
    if n > 0 {
      LinksIgnoreBlocks(a, b, keys, n - 1);
      BareTask(a, b);
      assert a[keys[n - 1]].(blocks := []) == b[keys[n - 1]].(blocks := []);
    }
  }

  lemma RelinkedIgnoresBlocks(a: map<string, Task>, b: map<string, Task>)
    requires Bare(a) == Bare(b)
    ensures Relinked(a) == Relinked(b)
  {
    hide SortedKeys, Links, LinksOf, BlocksFrom;
    BareTask(a, b);
    SortedKeysAre(a.Keys);
    var keys := SortedKeys(a.Keys);
    LinksIgnoreBlocks(a, b, keys, |keys|);
    var links := AllLinks(a);
    assert AllLinks(b) == links;
    forall k | k in a
      ensures a[k].(blocks := BlocksFrom(links, |links|, k)) == b[k].(blocks := BlocksFrom(links, |links|, k))
    {
      assert a[k].(blocks := []) == b[k].(blocks := []);
    }
  }

  lemma RelinkedKeepsTheRest(s: State)
    ensures SameButBlocks(RecomputeBlocks(s), s)
  {
    SameBare(Relinked(s.tasks), s.tasks);
  }

  // The state mutate() builds: the replayed log with the new event applied and links recomputed. Its
  // snapshot differs from it in the project's updated_at alone.
  function Incremental(events: seq<Event>, ev: Event): Result<State, Error> {
    var s :- Replay(events);
    var t :- Apply(s, ev);
    Ok(RecomputeBlocks(t))
  }

  // The incremental update is the replay of the extended log: it succeeds for the same events and
  // has the same project, tasks (links included), memories and sessions.
  lemma IncrementalIsReplay(events: seq<Event>, ev: Event)
    requires Replay(events).Ok?
    ensures Incremental(events, ev).Ok? == Replay(events + [ev]).Ok?
    ensures Incremental(events, ev).Ok? ==>
      var t := Replay(events + [ev]).value;
      Incremental(events, ev).value == t.(lastSeq := Replay(events).value.lastSeq)
  {
    var s := Fold(events).value;
    var longer := events + [ev];
    assert longer[..|longer| - 1] == events;
    RelinkedKeepsTheRest(s);
    hide Apply, RecomputeBlocks;
    ApplyIgnoresBlocks(RecomputeBlocks(s), s, ev);
    if Apply(s, ev).Ok? {
      ApplyKeepsSeq(s, ev);
      ApplyKeepsSeq(RecomputeBlocks(s), ev);
      RecomputeAgrees(Apply(s, ev).value, Apply(RecomputeBlocks(s), ev).value);
      RecomputeAgrees(Fold(longer).value, Apply(s, ev).value.(lastSeq := Fold(longer).value.lastSeq));
    }
  }

  lemma ApplyKeepsSeq(s: State, ev: Event)
    ensures Apply(s, ev).Ok? ==> Apply(s, ev).value.lastSeq == s.lastSeq
  {}

  lemma RecomputeAgrees(s: State, t: State)
    requires SameButBlocks(s, t)
    ensures RecomputeBlocks(s) == RecomputeBlocks(t)
    ensures forall n :: RecomputeBlocks(s.(lastSeq := n)) == RecomputeBlocks(s).(lastSeq := n)
    ensures RecomputeBlocks(s).lastSeq == s.lastSeq
  {
    RelinkedIgnoresBlocks(s.tasks, t.tasks);
  }

  lemma {:induction false} FoldError(events: seq<Event>, i: nat)
    requires i <= |events| && Fold(events[..i]).Err?
    ensures Fold(events).Err?
    decreases |events| - i
  {
    if i < |events| {
      assert events[..i + 1][..i] == events[..i];
      FoldError(events, i + 1);
    } else {
      assert events[..i] == events;
    }
  }
}

/** The State object of engine.rs: the same replay, changing its fields in place. */
module ProjectEngine {
  import opened Wrappers
  import opened Ordering
  import opened Text
  import S = ProjectStates
  import opened ProjectStates

  class ProjectState {
    var project: Project
    var tasks: map<string, Task>
    var memories: map<string, Memory>
    var sessions: map<string, Session>
    var lastSeq: int

    function Value(): State
      reads this
    {
      State(project, tasks, memories, sessions, lastSeq)
    }

    constructor ()
      ensures Value() == EMPTY
    {
      project, tasks, memories, sessions, lastSeq := EMPTY_PROJECT, map[], map[], map[], 0;
    }

    // On an error the object is left half changed; every caller drops it.
    method Apply(ev: Event) returns (r: Result<(), Error>)
      modifies this
      ensures var s := S.Apply(old(Value()), ev);
        if s.Ok? then r == Ok(()) && Value() == s.value else r == Err(s.error)
    {
      r := Ok(());
      match ev.payload {
        case ProjectInitialized(p) =>
          project := p;
          if p.schemaVersion != SCHEMA_VERSION {
            r := Err(Invalid("unsupported project schema version"));
          }
        case TaskCreated(t) =>
          tasks := tasks[t.id := t];
        case TaskUpdated(t) =>
          if Named(t) {
            tasks := tasks[t.value.id := t.value];
          }
        case TaskClaimed(id, _, _) =>
          r := Change(id, ev);
        case TaskClosed(id, _, _, t) =>
          if Named(t) {
            tasks := tasks[t.value.id := t.value];
          } else {
            r := Change(id, ev);
          }
        case CommentAdded(id, _) =>
          r := Change(id, ev);
        case DependencyAdded(id, _, _) =>
          r := Change(id, ev);
        case DependencyRemoved(id, _, _) =>
          r := Change(id, ev);
        case MemoryUpserted(m, named) =>
          var memory := m.(id := Key(m.id, named));
          memories := memories[memory.id := memory];
        case MemoryDeleted(id, named) =>
          memories := memories - {Key(id, named)};
        case SessionSaved(x) =>
          sessions := sessions[x.id := x];
        case Other(_) =>
        case Malformed(_, _) =>
          r := Err(Json);
      }
    }

    // task_mut and the change of the task it returns.
    method Change(id: string, ev: Event) returns (r: Result<(), Error>)
      modifies this`tasks
      ensures if id !in old(tasks) then r == Err(NotFound(id)) && tasks == old(tasks)
        else var t := Edit(old(tasks)[id], ev);
          if t.Ok? then r == Ok(()) && tasks == old(tasks)[id := t.value] else r == Err(t.error)
    {
      if id !in tasks {
        return Err(NotFound(id));
      }
      var t := Edit(tasks[id], ev);
      if t.Err? {
        return Err(t.error);
      }
      tasks := tasks[id := t.value];
      r := Ok(());
    }

    method CollectLinks() returns (links: seq<(string, string)>)
      ensures links == AllLinks(tasks)
    {
      hide SortedKeys;
      SortedKeysAre(tasks.Keys);
      var keys := SortedKeys(tasks.Keys);
      links := [];
      for i := 0 to |keys|
        invariant links == Links(tasks, keys, i)
      {
        var t := tasks[keys[i]];
        for j := 0 to |t.dependsOn|
          invariant links == Links(tasks, keys, i) + LinksOf(t.id, t.dependsOn, j)
        {
          links := links + [(t.id, t.dependsOn[j])];
        }
      }
    }

    method PushLinks(links: seq<(string, string)>)
      requires forall k :: k in tasks ==> tasks[k].blocks == []
      modifies this`tasks
      ensures tasks.Keys == old(tasks).Keys
      ensures forall k :: k in tasks ==> tasks[k] == old(tasks)[k].(blocks := BlocksFrom(links, |links|, k))
    {
      for i := 0 to |links|
        invariant tasks.Keys == old(tasks).Keys
        invariant forall k :: k in tasks ==> tasks[k] == old(tasks)[k].(blocks := BlocksFrom(links, i, k))
      {
        var (id, dep) := links[i];
        if dep in tasks && id !in tasks[dep].blocks {
          tasks := tasks[dep := tasks[dep].(blocks := tasks[dep].blocks + [id])];
        }
      }
    }

    // Collect the links, clear every reverse list, then push each link's task once.
    method RecomputeBlocks()
      modifies this`tasks
      ensures Value() == S.RecomputeBlocks(old(Value()))
    {
      hide SortedKeys, Links, LinksOf, BlocksFrom;
      var links := CollectLinks();
      tasks := map k | k in tasks :: tasks[k].(blocks := []);
      PushLinks(links);
      assert tasks == Relinked(old(tasks));
    }

    method Replay(events: seq<Event>) returns (r: Result<(), Error>)
      requires Value() == EMPTY
      modifies this
      ensures r.Ok? == S.Replay(events).Ok?
      ensures r.Ok? ==> Value() == S.Replay(events).value
    {
      hide S.Apply, S.RecomputeBlocks;
      for i := 0 to |events|
        invariant Fold(events[..i]) == Ok(Value())
      {
        assert events[..i + 1][..i] == events[..i] && events[..i + 1][i] == events[i];
        var ok := Apply(events[i]);
        if ok.Err? {
          FoldError(events, i + 1);
          return Err(ok.error);
        }
        lastSeq := Max(lastSeq, events[i].seqNo);
      }
      assert events[..|events|] == events;
      RecomputeBlocks();
      r := Ok(());
    }
  }
}
