/** Which tasks are ready, and when an instant is (engine.rs, adk-codec state.rs), in plain terms. */
module ReadyLaws {
  import opened Wrappers
  import opened Ordering
  import opened Text
  import opened Timestamps
  import opened ProjectStates
  import opened ReadyTasks

  // ---- the calendar

  // A second, and a nanosecond, are what they are called.
  lemma ClockLaw(t: Stamp, u: Stamp)
    requires ValidStamp(t) && ValidStamp(u)
    requires u == t.(hour := u.hour, minute := u.minute, second := u.second)
    ensures Instant(u) - Instant(t) == 1_000_000_000 *
      (3600 * (u.hour as int - t.hour) + 60 * (u.minute as int - t.minute) + (u.second as int - t.second))
  {}

  lemma NanosLaw(fraction: string, d: char)
    requires |fraction| < 9 && AllDigits(fraction) && '0' <= d <= '9'
    ensures Nanos("") == 0 && AllDigits(fraction + [d])
    ensures Nanos(fraction + [d]) == Nanos(fraction) + (d - '0') as int * Power10(8 - |fraction|)
  {
    hide AllDigits, Zeros, ParseDigits, Power10, Nanos;
    var n := 8 - |fraction|;
    OneDigit(fraction, d);
    NoDigits();
    NanosAre("");
    NanosAre(fraction);
    NanosAre(fraction + [d]);
    PowerNext(n);
    Distribute(ParseDigits(fraction + [d]), ParseDigits(fraction), (d - '0') as int, Power10(n), Power10(n + 1));
  }

  lemma NanosAre(fraction: string)
    requires |fraction| <= 9 && AllDigits(fraction)
    ensures Nanos(fraction) == ParseDigits(fraction) * Power10(9 - |fraction|)
  {
    hide AllDigits, Zeros, ParseDigits, Power10;
    ZerosParse(fraction, 9 - |fraction|);
  }

  lemma NoDigits()
    ensures AllDigits("") && ParseDigits("") == 0
  {}

  lemma OneDigit(s: string, d: char)
    requires AllDigits(s) && '0' <= d <= '9'
    ensures AllDigits(s + [d]) && ParseDigits(s + [d]) == 10 * ParseDigits(s) + (d - '0') as int
  {
    assert (s + [d])[..|s|] == s;
  }

  lemma PowerNext(n: nat)
    ensures Power10(n + 1) == 10 * Power10(n) && Power10(0) == 1
  {}

  lemma Distribute(q: int, a: int, b: int, p: int, p10: int)
    requires q == 10 * a + b && p10 == 10 * p
    ensures q * p == a * p10 + b * p
  {}

  lemma {:induction false} ZerosParse(s: string, n: nat)
    requires AllDigits(s)
    ensures AllDigits(s + Zeros(n)) && ParseDigits(s + Zeros(n)) == ParseDigits(s) * Power10(n)
  {
    hide AllDigits, ParseDigits, Power10;
    if n == 0 {
      assert s + Zeros(0) == s;
      PowerNext(0);
    } else {
      ZerosParse(s, n - 1);
      OneDigit(s + Zeros(n - 1), '0');
      assert s + Zeros(n) == s + Zeros(n - 1) + ['0'];
      PowerNext(n - 1);
      Distribute(10 * ParseDigits(s), ParseDigits(s), 0, Power10(n - 1), Power10(n));
    }
  }

  // The days of the months, with a 29th of February in every fourth year but three of four centuries.
  lemma MonthLaw(year: nat)
    ensures forall m :: m in {1, 3, 5, 7, 8, 10, 12} ==> MonthDays(year, m) == 31
    ensures forall m :: m in {4, 6, 9, 11} ==> MonthDays(year, m) == 30
    ensures MonthDays(year, 2) == if year % 400 == 0 || (year % 4 == 0 && year % 100 != 0) then 29 else 28
  {}

  // One day follows another, over the ends of months and years.
  lemma DayLaw(t: Stamp, u: Stamp)
    requires ValidStamp(t) && ValidStamp(u)
    requires u == if t.day < MonthDays(t.year, t.month) then t.(day := t.day + 1)
      else if t.month < 12 then t.(day := 1, month := t.month + 1)
      else t.(day := 1, month := 1, year := t.year + 1)
    ensures Instant(u) - Instant(t) == 86_400_000_000_000
  {
    if t.day == MonthDays(t.year, t.month) && t.month == 12 {
      YearLaw(t.year);
    }
  }

  lemma YearLaw(year: nat)
    ensures DaysBeforeYear(year + 1) == DaysBeforeYear(year) + DaysBeforeMonth(year, 12) + MonthDays(year, 12)
    ensures DaysBeforeMonth(year, 1) == 0
  {
    hide MonthDays;
    NextMonth(year, 1);
    NextMonth(year, 2);
    NextMonth(year, 3);
    NextMonth(year, 4);
    NextMonth(year, 5);
    NextMonth(year, 6);
    NextMonth(year, 7);
    NextMonth(year, 8);
    NextMonth(year, 9);
    NextMonth(year, 10);
    NextMonth(year, 11);
    MonthLaw(year);
    hide DaysBeforeMonth;
  }

  lemma NextMonth(year: nat, m: nat)
    requires m >= 1
    ensures DaysBeforeMonth(year, m + 1) == DaysBeforeMonth(year, m) + MonthDays(year, m)
  {}

  // The text of an instant: its numbers in decimal, year first, with their separators.
  lemma {:induction false} DigitsLaw(n: nat, w: nat)
    requires n < Power10(w)
    ensures |Digits(n, w)| == w && AllDigits(Digits(n, w)) && ParseDigits(Digits(n, w)) == n
  {
    if w > 0 {
      DigitsLaw(n / 10, w - 1);
      OneDigit(Digits(n / 10, w - 1), '0' + (n % 10) as char);
    }
  }

  lemma TextLaw(t: Stamp)
    requires ValidStamp(t)
    ensures AsText(t) == Digits(t.year, 4) + "-" + Digits(t.month, 2) + "-" + Digits(t.day, 2) + "T"
      + Digits(t.hour, 2) + ":" + Digits(t.minute, 2) + ":" + Digits(t.second, 2)
      + (if t.fraction == "" then "" else "." + t.fraction) + t.zone
    ensures t.year < Power10(4) && t.month < Power10(2) && t.day < Power10(2) && t.hour < Power10(2)
    ensures t.minute < Power10(2) && t.second < Power10(2)
  {
    hide Digits;
    PowerNext(0);
    PowerNext(1);
    PowerNext(2);
    PowerNext(3);
  }

  // ---- the engine's list

  predicate SameLetter(c: char, d: char) {
    || c == d || (65 <= c as int <= 90 && d as int == c as int + 32)
    || (65 <= d as int <= 90 && c as int == d as int + 32)
  }

  // Labels match without the white space around them and in either case of a letter.
  lemma LabelLaw(a: string, b: string)
    ensures SameLabel(a, b) <==>
      |Trim(a)| == |Trim(b)| && forall i :: 0 <= i < |Trim(a)| ==> SameLetter(Trim(a)[i], Trim(b)[i])
  {
    forall c, d ensures Lower(c) == Lower(d) <==> SameLetter(c, d) {}
  }

  // Who asks: the actor, or where there is none the assignee.
  function Asker(f: TaskFilter): string {
    if Trim(f.actor) != "" then Trim(f.actor) else Trim(f.assignee)
  }

  // A task is ready if it is open and everything it depends on is there and closed; the filter's labels
  // must all be among its own, and an assigned task is only for its assignee.
  ghost predicate Startable(m: map<string, Task>, t: Task, f: TaskFilter) {
    && t.status == "open" && (forall d <- t.dependsOn :: d in m && m[d].status == "closed")
    && (forall w <- f.labels :: exists a <- t.labels :: SameLabel(a, w))
    && (f.assignee != "" && t.assignee != "" ==> t.assignee == f.assignee)
    && (!f.includeAssigned && t.assignee != "" ==> t.assignee == Asker(f))
  }

  lemma StartableIs(m: map<string, Task>, t: Task, f: TaskFilter)
    ensures IsReady(m, t, f) <==> Startable(m, t, f)
  {
    hide SameLabel, Trim;
    LabelsAre(t.labels, f.labels);
    hide MatchesLabels;
  }

  lemma LabelsAre(actual: seq<string>, wanted: seq<string>)
    ensures MatchesLabels(actual, wanted) <==> forall w <- wanted :: exists a <- actual :: SameLabel(a, w)
  {
    hide SameLabel;
    if MatchesLabels(actual, wanted) {
      forall w | w in wanted ensures exists a <- actual :: SameLabel(a, w) {
        var i :| 0 <= i < |wanted| && wanted[i] == w;
        var j :| 0 <= j < |actual| && SameLabel(actual[j], wanted[i]);
        assert actual[j] in actual;
      }
    }
    if forall w <- wanted :: exists a <- actual :: SameLabel(a, w) {
      forall i | 0 <= i < |wanted| ensures exists j :: 0 <= j < |actual| && SameLabel(actual[j], wanted[i]) {
        assert wanted[i] in wanted;
        var a :| a in actual && SameLabel(a, wanted[i]);
        var j :| 0 <= j < |actual| && actual[j] == a;
      }
    }
  }

  // The ready tasks, each once: the most urgent first, of those the latest changed, then by ID; at most
  // as many as asked for.
  lemma ReadyLaw(s: State, f: TaskFilter)
    requires forall k :: k in s.tasks ==> s.tasks[k].id == k
    ensures var (all, r) := (Ready(s, f.(limit := 0)), Ready(s, f));
      && (forall t :: t in all <==> t.id in s.tasks && s.tasks[t.id] == t && Startable(s.tasks, t, f))
      && Distinct(all)
      && (forall i, j :: 0 <= i < j < |all| ==>
        var (a, b) := (all[i], all[j]);
        a.priority < b.priority || (a.priority == b.priority &&
          (a.updatedAt > b.updatedAt || (a.updatedAt == b.updatedAt && TextLe(a.id, b.id)))))
      && r == if f.limit <= 0 || |all| <= f.limit then all else all[..f.limit]
  {
    EngineReadyIs(s, f);
    hide Startable, IsReady, TextLe, SortedTasks, Filter;
    var all := Ready(s, f.(limit := 0));
    SameFilter(s, f);
    forall t ensures IsReady(s.tasks, t, f) <==> Startable(s.tasks, t, f) { StartableIs(s.tasks, t, f); }
    forall i, j | 0 <= i < j < |all|
      ensures all[i].priority < all[j].priority || (all[i].priority == all[j].priority &&
        (all[i].updatedAt > all[j].updatedAt ||
          (all[i].updatedAt == all[j].updatedAt && TextLe(all[i].id, all[j].id))))
    {
      assert all[i] in all && all[j] in all;
      OpenOnly(s.tasks, all[i], f);
      OpenOnly(s.tasks, all[j], f);
      assert TaskLe(all[i], all[j]);
    }
  }

  lemma OpenOnly(m: map<string, Task>, t: Task, f: TaskFilter)
    requires IsReady(m, t, f)
    ensures t.status == "open"
  {}

  lemma {:induction false} FilterAlike<T>(p: T -> bool, q: T -> bool, s: seq<T>)
    requires forall x :: p(x) == q(x)
    ensures Filter(p, s) == Filter(q, s)
  {
    if s != [] {
      FilterAlike(p, q, s[1..]);
    }
  }

  lemma SameFilter(s: State, f: TaskFilter)
    ensures Ready(s, f.(limit := 0)) == Filter(t => IsReady(s.tasks, t, f), SortedTasks(s.tasks))
  {
    hide SortedTasks;
    var g := f.(limit := 0);
    FilterAlike(t => IsReady(s.tasks, t, g), t => IsReady(s.tasks, t, f), SortedTasks(s.tasks));
  }

  // ---- the codec's replay

  // A task is created once, after what it depends on; claimed and closed where it exists; and no event of
  // another kind is read.
  lemma CodecLaw(tasks: WireTasks, t: WireTask, id: string, actor: string, at: Option<Time>, reason: string)
    ensures CodecStep(tasks, WireCreated(t)) ==
      if t.id !in tasks && (forall d <- t.dependsOn :: d in tasks) then Some(tasks[t.id := t]) else None
    ensures CodecStep(tasks, WireClaimed(id, actor, at)) ==
      if id in tasks then Some(tasks[id := tasks[id].(status := "in_progress", assignee := actor)]) else None
    ensures CodecStep(tasks, WireClosed(id, reason, at, t)) ==
      if id in tasks && t.id == id then Some(tasks[id := t]) else None
    ensures forall p :: CodecStep(tasks, WireInitialized(p)) == Some(tasks)
    ensures forall p :: CodecStep(tasks, WireOther(p)) == None
  {}

  // The log must count from one and name no event twice.
  lemma CodecReplayLaw(log: seq<WireEvent>, n: nat)
    requires n < |log|
    ensures CodecReplay(log, 0) == Some(map[])
    ensures CodecReplay(log, n + 1) ==
      if CodecReplay(log, n).Some? && log[n].seqNo == n + 1
        && (forall i :: 0 <= i < n ==> log[i].eventId != log[n].eventId)
      then CodecStep(CodecReplay(log, n).value, log[n].payload) else None
  {}

  lemma CodecReadyLaw(tasks: WireTasks, t: WireTask)
    ensures CodecIsReady(tasks, t) <==>
      t.status == "open" && t.assignee == "" && forall d <- t.dependsOn :: d in tasks && tasks[d].status == "closed"
  {}
}
