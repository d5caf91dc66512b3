/**
 Ready work computed twice from one log: by the engine's replay and its task order (engine.rs), and
 by the codec's small replay (adk-codec state.rs), which reads the same records.
 */
module ReadyTasks {
  import opened Wrappers
  import opened Ordering
  import opened Text
  import opened Timestamps
  import opened ProjectStates
  import MemoryHistory

  // ---- the engine

  datatype TaskFilter = TaskFilter(
    labels: seq<string>, assignee: string, actor: string, includeAssigned: bool, limit: int)

  const DEFAULT_FILTER: TaskFilter := TaskFilter([], "", "", false, 0)

  // Status, then priority, then the latest update first, then ID.
  predicate TaskLe(a: Task, b: Task) {
    if a.status != b.status then TextLe(a.status, b.status)
    else if a.priority != b.priority then a.priority < b.priority
    else if a.updatedAt != b.updatedAt then b.updatedAt < a.updatedAt
    else TextLe(a.id, b.id)
  }

  function SortedTasks(m: map<string, Task>): seq<Task> {
    SortedKeysAre(m.Keys);
    var keys := SortedKeys(m.Keys);
    Sort(TaskLe, ValuesOf(m, keys, |keys|))
  }

  predicate HasBlocker(m: map<string, Task>, t: Task) {
    exists d :: d in t.dependsOn && (d !in m || m[d].status != "closed")
  }

  function Lower(c: char): char {
    if 'A' <= c <= 'Z' then c + 32 as char else c
  }

  predicate SameLabel(a: string, b: string) {
    var (x, y) := (Trim(a), Trim(b));
    |x| == |y| && forall i :: 0 <= i < |x| ==> Lower(x[i]) == Lower(y[i])
  }

  predicate MatchesLabels(actual: seq<string>, wanted: seq<string>) {
    forall i :: 0 <= i < |wanted| ==> exists j :: 0 <= j < |actual| && SameLabel(actual[j], wanted[i])
  }

  function First(a: string, b: string): string {
    if Trim(a) == "" then Trim(b) else Trim(a)
  }

  predicate IsReady(m: map<string, Task>, t: Task, f: TaskFilter) {
    && t.status == "open"
    && MatchesLabels(t.labels, f.labels)
    && (f.assignee == "" || t.assignee == "" || t.assignee == f.assignee)
    && (f.includeAssigned || t.assignee == "" || t.assignee == First(f.actor, f.assignee))
    && !HasBlocker(m, t)
  }

  function Limited<T>(s: seq<T>, count: int): seq<T> {
    if 0 < count < |s| then s[..count] else s
  }

  // State::ready
  function Ready(s: State, f: TaskFilter): seq<Task> {
    Limited(Filter(t => IsReady(s.tasks, t, f), SortedTasks(s.tasks)), f.limit)
  }

  function Ids(s: seq<Task>): seq<string> {
    seq(|s|, i requires 0 <= i < |s| => s[i].id)
  }

  // ---- the log both read

  datatype WireTask = WireTask(
    id: string, status: string, priority: int, updatedAt: Stamp, assignee: string, dependsOn: seq<string>,
    labels: seq<string>, details: string)

  datatype WirePayload =
    | WireInitialized(project: Project)
    | WireCreated(task: WireTask)
    | WireClaimed(id: string, actor: string, at: Option<Time>)
    | WireClosed(id: string, reason: string, at: Option<Time>, task: WireTask)
    | WireOther(payload: Payload)   // every kind the codec does not support

  datatype WireEvent = WireEvent(seqNo: int, eventId: string, actor: string, payload: WirePayload)

  // How the engine decodes a record: its times are instants.
  function EngineTask(t: WireTask): Task
    requires ValidStamp(t.updatedAt)
  {
    Task(t.id, t.status, t.priority, t.assignee, t.dependsOn, [], t.labels, [], Instant(t.updatedAt), None, t.details)
  }

  ghost predicate ValidEvent(e: WireEvent) {
    match e.payload
    case WireCreated(t) => ValidStamp(t.updatedAt)
    case WireClosed(_, _, _, t) => ValidStamp(t.updatedAt)
    case _ => true
  }

  function EngineEvent(e: WireEvent): Event
    requires ValidEvent(e)
  {
    Event(e.seqNo, e.eventId, e.actor,
      match e.payload
      case WireInitialized(p) => ProjectInitialized(p)
      case WireCreated(t) => TaskCreated(EngineTask(t))
      case WireClaimed(id, actor, at) => TaskClaimed(id, actor, at)
      case WireClosed(id, reason, at, t) => TaskClosed(id, reason, at, Some(EngineTask(t)))
      case WireOther(p) => p)
  }

  function EngineLog(log: seq<WireEvent>): seq<Event>
    requires forall e :: e in log ==> ValidEvent(e)
  {
    if log == [] then [] else EngineLog(log[..|log| - 1]) + [EngineEvent(log[|log| - 1])]
  }

  // ---- the codec

  type WireTasks = map<string, WireTask>

  predicate Seen(log: seq<WireEvent>, n: nat, id: string)
    requires n <= |log|
  {
    exists i :: 0 <= i < n && log[i].eventId == id
  }

  // One event on the codec's task map; None is an error.
  function CodecStep(tasks: WireTasks, p: WirePayload): Option<WireTasks> {
    match p
    case WireInitialized(_) => Some(tasks)
    case WireCreated(t) =>
      if t.id in tasks || exists d :: d in t.dependsOn && d !in tasks then None else Some(tasks[t.id := t])
    case WireClaimed(id, actor, _) =>
      if id !in tasks then None else Some(tasks[id := tasks[id].(status := "in_progress", assignee := actor)])
    case WireClosed(id, _, _, t) =>
      if id !in tasks || id != t.id then None else Some(tasks[id := t])
    case WireOther(_) => None
  }

  function CodecReplay(log: seq<WireEvent>, n: nat): Option<WireTasks>
    requires n <= |log|
  {
    if n == 0 then Some(map[])
    else
      match CodecReplay(log, n - 1)
      case None => None
      case Some(tasks) =>
        if log[n - 1].seqNo != n || Seen(log, n - 1, log[n - 1].eventId) then None
        else CodecStep(tasks, log[n - 1].payload)
  }

  predicate AllKnown(tasks: WireTasks) {
    forall k :: k in tasks ==> forall d :: d in tasks[k].dependsOn ==> d in tasks
  }

  predicate CodecIsReady(tasks: WireTasks, t: WireTask) {
    t.status == "open" && t.assignee == "" && forall d :: d in t.dependsOn ==> d in tasks && tasks[d].status == "closed"
  }

  // timestamp_key: only UTC stamps have one.
  predicate HasKey(t: Stamp) {
    ValidStamp(t) && t.zone == "Z"
  }

  // The key itself, read off the text: its first nineteen characters and the padded fraction.
  function TimestampKey(t: Stamp): (string, nat)
    requires HasKey(t)
  {
    KeySlices(t);
    var text := AsText(t);
    (text[..19], Nanos(if |text| > 20 then text[20..|text| - 1] else ""))
  }

  predicate LaterKey(a: (string, nat), b: (string, nat)) {
    if a.0 == b.0 then b.1 <= a.1 else TextLe(b.0, a.0)
  }

  // Priority, then the later key first, then ID; tasks without a key are never compared.
  predicate CodecLe(a: WireTask, b: WireTask) {
    if a.priority != b.priority then a.priority < b.priority
    else if HasKey(a.updatedAt) && HasKey(b.updatedAt) && TimestampKey(a.updatedAt) != TimestampKey(b.updatedAt) then
      LaterKey(TimestampKey(a.updatedAt), TimestampKey(b.updatedAt))
    else if HasKey(a.updatedAt) != HasKey(b.updatedAt) then HasKey(a.updatedAt)
    else TextLe(a.id, b.id)
  }

  ghost predicate Listing(tasks: WireTasks, keys: seq<string>) {
    (forall k :: k in keys <==> k in tasks) && forall i, j :: 0 <= i < j < |keys| ==> keys[i] != keys[j]
  }

  // ready() of the codec, visiting its hash map in the order `keys`; None is an error.
  function CodecReady(log: seq<WireEvent>, keys: seq<string>): Option<seq<WireTask>>
    requires var r := CodecReplay(log, |log|); r.Some? ==> forall k :: k in keys ==> k in r.value
  {
    match CodecReplay(log, |log|)
    case None => None
    case Some(tasks) =>
      if !AllKnown(tasks) then None
      else
        var ready := Filter(t => CodecIsReady(tasks, t), ValuesOf(tasks, keys, |keys|));
        if exists t :: t in ready && !HasKey(t.updatedAt) then None else Some(Sort(CodecLe, ready))
  }

  function WireIds(s: seq<WireTask>): seq<string> {
    seq(|s|, i requires 0 <= i < |s| => s[i].id)
  }

  // ---- agreement

  // The engine's task is the codec's, but that a claim moves only the engine's update time.
  ghost predicate SameTask(t: Task, w: WireTask) {
    && t.id == w.id && t.status == w.status && t.priority == w.priority && t.assignee == w.assignee
    && t.dependsOn == w.dependsOn && t.labels == w.labels
    && ValidStamp(w.updatedAt) && (t.status != "in_progress" ==> t.updatedAt == Instant(w.updatedAt))
  }

  ghost predicate SameTasks(m: map<string, Task>, w: WireTasks) {
    m.Keys == w.Keys && forall k :: k in m ==> m[k].id == k && SameTask(m[k], w[k])
  }

  // Closed tasks carry an ID, as every task the engine writes does.
  ghost predicate NamedClosings(log: seq<WireEvent>) {
    forall e :: e in log ==> e.payload.WireClosed? ==> e.payload.task.id != ""
  }

  lemma WriteAgrees(m: map<string, Task>, w: WireTasks, k: string, t: Task, x: WireTask)
    requires SameTasks(m, w) && t.id == k && SameTask(t, x)
    ensures SameTasks(m[k := t], w[k := x])
  {
    hide SameTask;
  }

  lemma ClaimAgrees(t: Task, x: WireTask, ev: Event)
    requires SameTask(t, x) && ev.payload.TaskClaimed? && Edit(t, ev).Ok?
    ensures SameTask(Edit(t, ev).value, x.(status := "in_progress", assignee := ev.payload.actor))
    ensures Edit(t, ev).value.id == t.id
  {}

  lemma NewTaskAgrees(t: WireTask)
    requires ValidStamp(t.updatedAt)
    ensures SameTask(EngineTask(t), t) && EngineTask(t).id == t.id
  {}

  lemma StepAgrees(s: State, w: WireTasks, e: WireEvent)
    requires SameTasks(s.tasks, w) && ValidEvent(e)
    requires e.payload.WireClosed? ==> e.payload.task.id != ""
    requires Apply(s, EngineEvent(e)).Ok? && CodecStep(w, e.payload).Some?
    ensures SameTasks(Apply(s, EngineEvent(e)).value.tasks, CodecStep(w, e.payload).value)
  {
    hide SameTask, EngineTask, Edit;
    var ev := EngineEvent(e);
    match e.payload {
      case WireInitialized(_) =>
      case WireCreated(t) =>
        NewTaskAgrees(t);
        WriteAgrees(s.tasks, w, t.id, EngineTask(t), t);
      case WireClaimed(id, actor, at) =>
        ClaimAgrees(s.tasks[id], w[id], ev);
        WriteAgrees(s.tasks, w, id, Edit(s.tasks[id], ev).value, w[id].(status := "in_progress", assignee := actor));
      case WireClosed(id, _, _, t) =>
        NewTaskAgrees(t);
        WriteAgrees(s.tasks, w, id, EngineTask(t), t);
      case WireOther(_) =>
    }
  }

  lemma {:induction false} ReplaysAgree(log: seq<WireEvent>, n: nat)
    requires n <= |log| && (forall e :: e in log ==> ValidEvent(e)) && NamedClosings(log)
    requires Fold(EngineLog(log[..n])).Ok? && CodecReplay(log, n).Some?
    ensures SameTasks(Fold(EngineLog(log[..n])).value.tasks, CodecReplay(log, n).value)
  {
    if n > 0 {
      assert log[..n][..n - 1] == log[..n - 1] && log[..n][n - 1] == log[n - 1];
      var before := EngineLog(log[..n - 1]);
      var ev := EngineEvent(log[n - 1]);
      assert EngineLog(log[..n]) == before + [ev];
      assert (before + [ev])[..|before|] == before;
      hide Apply, CodecStep, SameTasks, EngineLog;
      ReplaysAgree(log, n - 1);
      StepAgrees(Fold(before).value, CodecReplay(log, n - 1).value, log[n - 1]);
    }
  }

  lemma TextOrder(x: string, y: string, z: string)
    ensures (TextLe(x, y) || TextLe(y, x)) && (TextLe(x, y) && TextLe(y, x) ==> x == y)
    ensures TextLe(x, y) && TextLe(y, z) ==> TextLe(x, z)
  {
    TextTotal(x, y);
    if TextLe(x, y) && TextLe(y, z) {
      TextTransitive(x, y, z);
    }
  }

  lemma TaskOrder()
    ensures Total(TaskLe)
  {
    hide TextLe;
    forall x: Task, y: Task ensures TaskLe(x, y) || TaskLe(y, x) {
      TextOrder(x.id, y.id, x.id);
      TextOrder(x.status, y.status, x.status);
    }
    forall x: Task, y: Task, z: Task | TaskLe(x, y) && TaskLe(y, z) ensures TaskLe(x, z) {
      TextOrder(x.id, y.id, z.id);
      TextOrder(x.status, y.status, z.status);
      TextOrder(y.status, z.status, x.status);
      TextOrder(z.status, x.status, y.status);
    }
  }

  lemma LaterKeyOrder(a: (string, nat), b: (string, nat), c: (string, nat))
    ensures LaterKey(a, b) || LaterKey(b, a)
    ensures LaterKey(a, b) && LaterKey(b, a) ==> a == b
    ensures LaterKey(a, b) && LaterKey(b, c) ==> LaterKey(a, c)
  {
    hide TextLe;
    TextOrder(a.0, b.0, c.0);
    TextOrder(b.0, c.0, a.0);
    TextOrder(c.0, a.0, b.0);
    TextOrder(c.0, b.0, a.0);
  }

  lemma CodecOrder()
    ensures Total(CodecLe)
  {
    hide TextLe, TimestampKey, HasKey, LaterKey;
    forall x: WireTask, y: WireTask ensures CodecLe(x, y) || CodecLe(y, x) {
      TextOrder(x.id, y.id, x.id);
      if HasKey(x.updatedAt) && HasKey(y.updatedAt) {
        var (a, b) := (TimestampKey(x.updatedAt), TimestampKey(y.updatedAt));
        LaterKeyOrder(a, b, a);
      }
    }
    forall x: WireTask, y: WireTask, z: WireTask | CodecLe(x, y) && CodecLe(y, z) ensures CodecLe(x, z) {
      TextOrder(x.id, y.id, z.id);
      if HasKey(x.updatedAt) && HasKey(y.updatedAt) && HasKey(z.updatedAt) {
        var (a, b, c) := (TimestampKey(x.updatedAt), TimestampKey(y.updatedAt), TimestampKey(z.updatedAt));
        LaterKeyOrder(a, b, c);
        LaterKeyOrder(b, a, c);
        LaterKeyOrder(c, b, a);
      }
    }
  }

  lemma KeyIsInstant(a: Stamp, b: Stamp)
    requires HasKey(a) && HasKey(b)
    ensures LaterKey(TimestampKey(a), TimestampKey(b)) <==> Instant(b) <= Instant(a)
    ensures TimestampKey(a) == TimestampKey(b) <==> Instant(a) == Instant(b)
  {
    hide TextLe, Instant, Nanos, DateTimeText;
    KeySlices(a);
    KeySlices(b);
    KeyOrderIsInstantOrder(a, b);
    KeyOrderIsInstantOrder(b, a);
    LaterKeyOrder(TimestampKey(a), TimestampKey(b), TimestampKey(a));
  }

  // On open tasks with keys the two comparisons are the same.
  lemma OrdersAgree(a: Task, b: Task, x: WireTask, y: WireTask)
    requires SameTask(a, x) && SameTask(b, y) && a.status == b.status == "open"
    requires HasKey(x.updatedAt) && HasKey(y.updatedAt)
    ensures TaskLe(a, b) <==> CodecLe(x, y)
  {
    hide TextLe, Instant, TimestampKey;
    KeyIsInstant(x.updatedAt, y.updatedAt);
  }

  // The engine's ready list: the ready tasks, once each, in task order.
  lemma EngineReadyIs(s: State, f: TaskFilter)
    requires forall k :: k in s.tasks ==> s.tasks[k].id == k
    ensures var r := Filter(t => IsReady(s.tasks, t, f), SortedTasks(s.tasks));
      && Sorted(TaskLe, r) && Distinct(r)
      && forall t :: t in r <==> t.id in s.tasks && s.tasks[t.id] == t && IsReady(s.tasks, t, f)
  {
    hide IsReady, TaskLe;
    var keys := SortedKeys(s.tasks.Keys);
    SortedKeysAre(s.tasks.Keys);
    var values := ValuesOf(s.tasks, keys, |keys|);
    ValuesHold(s.tasks, (t: Task) => t.id, keys);
    TaskOrder();
    hide Sort, Filter;
    FilteredSort(TaskLe, t => IsReady(s.tasks, t, f), values);
  }

  // The codec's: likewise, in any visiting order of its map.
  lemma CodecReadyIs(tasks: WireTasks, keys: seq<string>)
    requires Listing(tasks, keys) && forall k :: k in tasks ==> tasks[k].id == k
    ensures var kept := Filter(t => CodecIsReady(tasks, t), ValuesOf(tasks, keys, |keys|));
      var r := Sort(CodecLe, kept);
      && Sorted(CodecLe, r) && Distinct(r) && (forall t :: t in r <==> t in kept)
      && forall t :: t in r <==> t.id in tasks && tasks[t.id] == t && CodecIsReady(tasks, t)
  {
    hide CodecIsReady, CodecLe, ValuesOf, Sorted, Distinct, Sort;
    var values := ValuesOf(tasks, keys, |keys|);
    ListedOnce(tasks, keys);
    ValuesHold(tasks, (t: WireTask) => t.id, keys);
    CodecOrder();
    var p := (t: WireTask) => CodecIsReady(tasks, t);
    SortedFilter(CodecLe, p, values);
    FilterIn(p, values);
    hide Filter;
  }

  lemma ListedOnce(tasks: WireTasks, keys: seq<string>)
    requires Listing(tasks, keys)
    ensures Distinct(keys) && forall k :: k in keys <==> k in tasks
  {}

  lemma DefaultReady(m: map<string, Task>, w: WireTasks, t: Task)
    requires SameTasks(m, w) && t.id in m && m[t.id] == t
    ensures IsReady(m, t, DEFAULT_FILTER) <==> CodecIsReady(w, w[t.id])
  {
    var x := w[t.id];
    assert SameTask(t, x);
    forall d | d in t.dependsOn && d in m ensures m[d].status == w[d].status {
      assert SameTask(m[d], w[d]);
    }
  }

  lemma CodecTies(x: WireTask, y: WireTask)
    requires CodecLe(x, y) && CodecLe(y, x)
    ensures x.id == y.id
  {
    hide TextLe, TimestampKey, LaterKey;
    TextOrder(x.id, y.id, x.id);
    if HasKey(x.updatedAt) && HasKey(y.updatedAt) {
      LaterKeyOrder(TimestampKey(x.updatedAt), TimestampKey(y.updatedAt), TimestampKey(x.updatedAt));
    }
  }

  ghost predicate IdLe(w: WireTasks, x: string, y: string) {
    x in w && y in w && CodecLe(w[x], w[y])
  }

  // Two ready lists over the same tasks.
  ghost predicate ReadyLists(m: map<string, Task>, w: WireTasks, e: seq<Task>, c: seq<WireTask>) {
    && SameTasks(m, w) && (forall k :: k in w ==> w[k].id == k)
    && Sorted(TaskLe, e) && Distinct(e)
    && (forall t :: t in e <==> t.id in m && m[t.id] == t && IsReady(m, t, DEFAULT_FILTER))
    && Sorted(CodecLe, c) && Distinct(c)
    && (forall x :: x in c <==> x.id in w && w[x.id] == x && CodecIsReady(w, x))
    && (forall x :: x in c ==> HasKey(x.updatedAt))
  }

  lemma EngineListed(m: map<string, Task>, w: WireTasks, e: seq<Task>, c: seq<WireTask>, i: nat)
    requires ReadyLists(m, w, e, c) && i < |e|
    ensures var x := e[i].id;
      && x in w && w[x] in c && m[x] == e[i] && e[i].status == "open"
      && x in WireIds(c) && Ids(e)[i] == x
  {
    hide TaskLe, CodecLe, IsReady, CodecIsReady, SameTask, HasKey;
    assert e[i] in e;
    DefaultReady(m, w, e[i]);
    ReadyIsOpen(m, e[i]);
    var j :| 0 <= j < |c| && c[j] == w[e[i].id];
    assert WireIds(c)[j] == e[i].id;
  }

  lemma CodecListed(m: map<string, Task>, w: WireTasks, e: seq<Task>, c: seq<WireTask>, i: nat)
    requires ReadyLists(m, w, e, c) && i < |c|
    ensures var x := c[i].id; x in w && w[x] == c[i] && x in Ids(e) && WireIds(c)[i] == x
  {
    hide TaskLe, CodecLe, IsReady, CodecIsReady, SameTask, HasKey;
    assert c[i] in c;
    DefaultReady(m, w, m[c[i].id]);
    assert m[c[i].id] in e;
    var j :| 0 <= j < |e| && e[j] == m[c[i].id];
    assert Ids(e)[j] == c[i].id;
  }

  // They name the same IDs in the same order.
  lemma ReadyIdsAgree(m: map<string, Task>, w: WireTasks, e: seq<Task>, c: seq<WireTask>)
    requires ReadyLists(m, w, e, c)
    ensures Ids(e) == WireIds(c)
  {
    hide TaskLe, CodecLe, IsReady, CodecIsReady, SameTask, HasKey, ReadyLists;
    var (a, b) := (Ids(e), WireIds(c));
    var le := (x: string, y: string) => IdLe(w, x, y);
    forall i: nat | i < |e| ensures e[i].id in w && w[e[i].id] in c && a[i] == e[i].id
      && a[i] in b { EngineListed(m, w, e, c, i); }
    forall i: nat | i < |c| ensures c[i].id in w && w[c[i].id] == c[i] && b[i] == c[i].id
      && b[i] in a { CodecListed(m, w, e, c, i); }
    forall i, j | 0 <= i < j < |a| ensures le(a[i], a[j]) && a[i] != a[j] { EngineOrdered(m, w, e, c, i, j); }
    forall i, j | 0 <= i < j < |b| ensures le(b[i], b[j]) && b[i] != b[j] { CodecOrdered(m, w, e, c, i, j); }
    forall x, y | x in a && y in a && le(x, y) && le(y, x) ensures x == y {
      CodecTies(w[x], w[y]);
    }
    SortedUnique(le, a, b);
  }

  lemma EngineOrdered(m: map<string, Task>, w: WireTasks, e: seq<Task>, c: seq<WireTask>, i: nat, j: nat)
    requires ReadyLists(m, w, e, c) && i < j < |e|
    ensures IdLe(w, e[i].id, e[j].id) && e[i].id != e[j].id
  {
    hide TaskLe, CodecLe, IsReady, CodecIsReady, SameTask, HasKey;
    EngineListed(m, w, e, c, i);
    EngineListed(m, w, e, c, j);
    OrdersAgree(e[i], e[j], w[e[i].id], w[e[j].id]);
  }

  lemma CodecOrdered(m: map<string, Task>, w: WireTasks, e: seq<Task>, c: seq<WireTask>, i: nat, j: nat)
    requires ReadyLists(m, w, e, c) && i < j < |c|
    ensures IdLe(w, c[i].id, c[j].id) && c[i].id != c[j].id
  {
    hide TaskLe, CodecLe, IsReady, CodecIsReady, SameTask, HasKey;
    CodecListed(m, w, e, c, i);
    CodecListed(m, w, e, c, j);
  }

  lemma ReadyIsOpen(m: map<string, Task>, t: Task)
    requires IsReady(m, t, DEFAULT_FILTER)
    ensures t.status == "open"
  {}

  // On every log both accept, the codec's ready list names the same tasks in the same order as the
  // engine's replay and default filter, whatever order the codec's hash map is visited in.
  lemma ReadyAgrees(log: seq<WireEvent>, keys: seq<string>)
    requires (forall e :: e in log ==> ValidEvent(e)) && NamedClosings(log)
    requires Replay(EngineLog(log)).Ok?
    requires CodecReplay(log, |log|).Some? && Listing(CodecReplay(log, |log|).value, keys)
    requires CodecReady(log, keys).Some?
    ensures WireIds(CodecReady(log, keys).value) == Ids(Ready(Replay(EngineLog(log)).value, DEFAULT_FILTER))
  {
    hide Fold, EngineLog, CodecReplay, SameTasks, RecomputeBlocks, Ready, CodecReady, NamedClosings, ReadyLists;
    assert log[..|log|] == log;
    ReplaysAgree(log, |log|);
    var f := Fold(EngineLog(log)).value;
    var w := CodecReplay(log, |log|).value;
    RelinkedSame(f, w);
    BothReady(RecomputeBlocks(f), log, keys, w);
    ReadyIdsAgree(RecomputeBlocks(f).tasks, w, Ready(RecomputeBlocks(f), DEFAULT_FILTER), CodecReady(log, keys).value);
  }

  lemma BothReady(s: State, log: seq<WireEvent>, keys: seq<string>, w: WireTasks)
    requires CodecReplay(log, |log|) == Some(w) && Listing(w, keys) && CodecReady(log, keys).Some?
    requires SameTasks(s.tasks, w) && forall k :: k in w ==> w[k].id == k
    ensures ReadyLists(s.tasks, w, Ready(s, DEFAULT_FILTER), CodecReady(log, keys).value)
  {
    hide TaskLe, CodecLe, IsReady, CodecIsReady, HasKey, CodecReplay, SameTask, Sorted, Filter, Sort, CodecReady,
      ValuesOf, Distinct;
    EngineReadyIs(s, DEFAULT_FILTER);
    CodecListIs(log, keys, w);
  }

  lemma CodecListIs(log: seq<WireEvent>, keys: seq<string>, w: WireTasks)
    requires CodecReplay(log, |log|) == Some(w) && Listing(w, keys) && CodecReady(log, keys).Some?
    requires forall k :: k in w ==> w[k].id == k
    ensures var c := CodecReady(log, keys).value;
      && Sorted(CodecLe, c) && Distinct(c) && (forall x :: x in c ==> HasKey(x.updatedAt))
      && forall x :: x in c <==> x.id in w && w[x.id] == x && CodecIsReady(w, x)
  {
    hide CodecLe, CodecIsReady, HasKey, CodecReplay, Sorted, Filter, Sort, ValuesOf, Distinct;
    CodecReadyIs(w, keys);
  }

  lemma RelinkedSame(f: State, w: WireTasks)
    requires SameTasks(f.tasks, w)
    ensures SameTasks(RecomputeBlocks(f).tasks, w) && forall k :: k in w ==> w[k].id == k
  {}

  // A task without an ID, and a closing event that carries it still open.
  function Nameless(): WireTask {
    WireTask("", "open", 0, Stamp(2024, 1, 1, 0, 0, 0, "", "Z"), "", [], [], "")
  }

  const CREATED: WireEvent := WireEvent(1, "a", "", WireCreated(Nameless()))
  const CLOSED: WireEvent := WireEvent(2, "b", "", WireClosed("", "", Some(0), Nameless()))

  lemma NamelessIsValid()
    ensures ValidEvent(CREATED) && ValidEvent(CLOSED) && ValidStamp(Nameless().updatedAt)
  {}

  lemma EngineCloses(s: State, n: int)
    requires ValidEvent(CREATED) && ValidEvent(CLOSED) && ValidStamp(Nameless().updatedAt) && s.tasks == map[]
    ensures Apply(s, EngineEvent(CREATED)).Ok?
    ensures var u := Apply(Apply(s, EngineEvent(CREATED)).value.(lastSeq := n), EngineEvent(CLOSED));
      u.Ok? && "" in u.value.tasks && u.value.tasks[""].status == "closed"
  {
    hide Instant;
    var t := EngineTask(Nameless());
    assert Apply(s, EngineEvent(CREATED)).value.tasks == map["" := t];
    assert EngineEvent(CLOSED).payload == TaskClosed("", "", Some(0), Some(t)) && !Named(Some(t));
    assert Edit(t, EngineEvent(CLOSED)).Ok? && Edit(t, EngineEvent(CLOSED)).value.status == "closed";
    assert TaskEffect(map["" := t], EngineEvent(CLOSED)) == Ok(Some(("", Edit(t, EngineEvent(CLOSED)).value)));
  }

  lemma CodecReopens()
    ensures CodecReplay([CREATED, CLOSED], 2) == Some(map["" := Nameless()])
    ensures CodecIsReady(map["" := Nameless()], Nameless())
  {
    var log := [CREATED, CLOSED];
    assert CodecReplay(log, 0) == Some(map[]);
    assert CodecReplay(log, 1) == Some(map["" := Nameless()]);
    assert !Seen(log, 1, "b");
    assert map["" := Nameless()]["" := Nameless()] == map["" := Nameless()];
  }

  lemma EngineLogOfTwo(a: WireEvent, b: WireEvent)
    requires ValidEvent(a) && ValidEvent(b)
    ensures EngineLog([a, b]) == [EngineEvent(a)] + [EngineEvent(b)]
  {
    hide EngineEvent;
    assert [a, b][..1] == [a] && [a][..0] == [];
    assert EngineLog([a]) == [] + [EngineEvent(a)];
  }

  // On such a log the two replays diverge: the engine closes the task it has, the codec takes the one in
  // the event, which is ready.
  lemma UnnamedClosingDiverges()
    ensures ValidEvent(CREATED) && ValidEvent(CLOSED) && !NamedClosings([CREATED, CLOSED])
    ensures Fold(EngineLog([CREATED, CLOSED])).Ok?
    ensures var m := Fold(EngineLog([CREATED, CLOSED])).value.tasks;
      "" in m && m[""].status == "closed" && !IsReady(m, m[""], DEFAULT_FILTER)
    ensures CodecReplay([CREATED, CLOSED], 2) == Some(map["" := Nameless()])
    ensures CodecIsReady(map["" := Nameless()], Nameless())
  {
    NamelessIsValid();
    CodecReopens();
    EngineLogOfTwo(CREATED, CLOSED);
    assert CLOSED in [CREATED, CLOSED] && CLOSED.payload.task.id == "";
    hide Apply, EngineEvent, CodecReplay, CodecIsReady, EngineLog, ValidEvent;
    var first, second := EngineEvent(CREATED), EngineEvent(CLOSED);
    assert Fold([]) == Ok(EMPTY);
    EngineCloses(EMPTY, Max(Apply(EMPTY, first).value.lastSeq, first.seqNo));
    MemoryHistory.FoldStep([], first);
    assert [] + [first] == [first];
    MemoryHistory.FoldStep([first], second);
  }

  // ---- the codec's loops

  // ready() of the codec: replay, check the dependencies, collect in the map's own order, check the
  // keys, sort.
  method RunCodecReady(log: seq<WireEvent>) returns (r: Option<seq<string>>)
    ensures r.Some? ==>
      CodecReplay(log, |log|).Some? && exists keys ::
        Listing(CodecReplay(log, |log|).value, keys) && CodecReady(log, keys).Some?
        && r.value == WireIds(CodecReady(log, keys).value)
    ensures r.None? ==>
      CodecReplay(log, |log|).None? || exists keys ::
        Listing(CodecReplay(log, |log|).value, keys) && CodecReady(log, keys).None?
  {
    hide CodecReplay, AllKnown, CodecLe, CodecIsReady, HasKey;
    var replayed := ReplayEvents(log);
    if replayed.None? {
      return None;
    }
    var tasks := replayed.value;
    var keys := Visit(tasks);
    var known := CheckDependencies(tasks, keys);
    if !known {
      assert CodecReady(log, keys).None?;
      return None;
    }
    var ready := Collect(tasks, keys);
    var keyed := CheckKeys(ready);
    if !keyed {
      assert CodecReady(log, keys).None?;
      return None;
    }
    var sorted := Sort(CodecLe, ready);
    assert CodecReady(log, keys) == Some(sorted);
    r := Some(WireIds(sorted));
  }

  method ReplayEvents(log: seq<WireEvent>) returns (r: Option<WireTasks>)
    ensures r == CodecReplay(log, |log|)
  {
    hide CodecStep;
    var tasks: WireTasks := map[];
    var ids: set<string> := {};
    for i := 0 to |log|
      invariant CodecReplay(log, i) == Some(tasks)
      invariant forall id :: id in ids <==> Seen(log, i, id)
    {
      var event := log[i];
      if event.seqNo != i + 1 || event.eventId in ids {
        CodecError(log, i + 1);
        return None;
      }
      ids := ids + {event.eventId};
      var next := CodecStep(tasks, event.payload);
      if next.None? {
        CodecError(log, i + 1);
        return None;
      }
      tasks := next.value;
      forall id ensures id in ids <==> Seen(log, i + 1, id) {}
    }
    return Some(tasks);
  }

  // The keys of a hash map, in whatever order it is visited.
  method Visit(tasks: WireTasks) returns (keys: seq<string>)
    ensures Listing(tasks, keys)
  {
    var rest := tasks.Keys;
    keys := [];
    while rest != {}
      invariant forall k :: k in tasks <==> k in rest || k in keys
      invariant forall i, j :: 0 <= i < j < |keys| ==> keys[i] != keys[j]
      invariant forall k :: k in rest ==> k !in keys
      decreases rest
    {
      var k :| k in rest;
      keys := keys + [k];
      rest := rest - {k};
    }
  }

  // Every dependency of every task names a task.
  method CheckDependencies(tasks: WireTasks, keys: seq<string>) returns (ok: bool)
    requires Listing(tasks, keys)
    ensures ok <==> AllKnown(tasks)
  {
    for n := 0 to |keys|
      invariant forall i, d :: 0 <= i < n && d in tasks[keys[i]].dependsOn ==> d in tasks
    {
      var task := tasks[keys[n]];
      for m := 0 to |task.dependsOn|
        invariant forall i :: 0 <= i < m ==> task.dependsOn[i] in tasks
      {
        if task.dependsOn[m] !in tasks {
          assert keys[n] in tasks && task.dependsOn[m] in tasks[keys[n]].dependsOn;
          return false;
        }
      }
    }
    forall k | k in tasks ensures forall d :: d in tasks[k].dependsOn ==> d in tasks {
      var i :| 0 <= i < |keys| && keys[i] == k;
    }
    return true;
  }

  // An open, unassigned task all of whose dependencies are closed.
  method CheckReady(tasks: WireTasks, t: WireTask) returns (ok: bool)
    ensures ok <==> CodecIsReady(tasks, t)
  {
    if t.status != "open" || t.assignee != "" {
      return false;
    }
    for m := 0 to |t.dependsOn|
      invariant forall i :: 0 <= i < m ==> t.dependsOn[i] in tasks && tasks[t.dependsOn[i]].status == "closed"
    {
      if t.dependsOn[m] !in tasks || tasks[t.dependsOn[m]].status != "closed" {
        assert t.dependsOn[m] in t.dependsOn;
        return false;
      }
    }
    return true;
  }

  method Collect(tasks: WireTasks, keys: seq<string>) returns (ready: seq<WireTask>)
    requires Listing(tasks, keys)
    ensures ready == Filter(t => CodecIsReady(tasks, t), ValuesOf(tasks, keys, |keys|))
  {
    hide CodecIsReady;
    ghost var p := (t: WireTask) => CodecIsReady(tasks, t);
    ready := [];
    for n := 0 to |keys|
      invariant ready == Filter(p, ValuesOf(tasks, keys, n))
    {
      var task := tasks[keys[n]];
      var ok := CheckReady(tasks, task);
      FilterMore(p, ValuesOf(tasks, keys, n), task);
      if ok {
        ready := ready + [task];
      }
    }
  }

  method CheckKeys(ready: seq<WireTask>) returns (ok: bool)
    ensures ok <==> forall t :: t in ready ==> HasKey(t.updatedAt)
  {
    hide HasKey;
    for n := 0 to |ready|
      invariant forall i :: 0 <= i < n ==> HasKey(ready[i].updatedAt)
    {
      if !HasKey(ready[n].updatedAt) {
        assert ready[n] in ready;
        return false;
      }
    }
    return true;
  }

  lemma {:induction false} CodecError(log: seq<WireEvent>, i: nat)
    requires i <= |log| && CodecReplay(log, i).None?
    ensures CodecReplay(log, |log|).None?
    decreases |log| - i
  {
    if i < |log| {
      hide CodecStep, Seen;
      CodecError(log, i + 1);
    }
  }
}
