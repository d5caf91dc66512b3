/**
 Whole runs of a run store: any sequence of operations by any callers, each with its own clock
 readings. Lease tokens are fresh values; nothing is assumed about the clock. The theorems hold of
 every store whose steps conform to the abstract one.
 */
module RunHistory {
  import opened Wrappers
  import opened RunRecords
  import opened RunStoreSpec

  datatype Call = Call(op: Op, draw: Draw)

  // A store: what a call does to its state and answers.
  type StepFn = (Store, Op, Draw, Options) -> (Store, Outcome<Reply>)

  // Call `c` of a store does what call `t` of the abstract one does: the same operation with the same
  // outcome, up to the error and the clock readings of a renewal, or a refusal that changes nothing.
  ghost predicate Stands(f: StepFn, s: Store, c: Call, t: Call, o: Options) {
    var (a, b) := (f(s, c.op, c.draw, o), Step(s, t.op, t.draw, o));
    && a.0 == b.0 && t.draw.token == c.draw.token && t.draw.now1 == c.draw.now1
    && if a.1.Ok? then t.op == c.op && a.1 == b.1 else t.op.OpLoad? || (t.op == c.op && b.1.Err?)
  }

  ghost predicate ConformsAt(f: StepFn, s: Store, c: Call, o: Options) {
    exists t :: Stands(f, s, c, t, o)
  }

  ghost predicate Conforms(f: StepFn, o: Options) {
    forall s, c :: ConformsAt(f, s, c, o)
  }

  function After(f: StepFn, calls: seq<Call>, o: Options): Store {
    if calls == [] then map[]
    else
      var n := |calls| - 1;
      f(After(f, calls[..n], o), calls[n].op, calls[n].draw, o).0
  }

  function Answer(f: StepFn, calls: seq<Call>, i: nat, o: Options): Outcome<Reply>
    requires i < |calls|
  {
    f(After(f, calls[..i], o), calls[i].op, calls[i].draw, o).1
  }

  // Tokens are UUIDs: no two acquisitions draw the same one.
  ghost predicate FreshTokens(calls: seq<Call>) {
    forall i, j :: 0 <= i < j < |calls| && calls[i].op.OpAcquire? && calls[j].op.OpAcquire? ==>
      calls[i].draw.token != calls[j].draw.token
  }

  predicate GrantedAt(f: StepFn, calls: seq<Call>, i: nat, k: Key, o: Options) {
    i < |calls| && calls[i].op.OpAcquire? && calls[i].op.key == k && Answer(f, calls, i, o).Ok?
  }

  // The lease an operation presents, if it needs one.
  function Presented(op: Op): Option<Lease> {
    match op
    case OpAppend(lease, _, _, _) => Some(lease)
    case OpRenew(lease, _) => Some(lease)
    case OpRelease(lease) => Some(lease)
    case _ => None
  }

  // What an answer tells the callers about the lease of `k`: a new one, none, or nothing new.
  function Told(op: Op, answer: Outcome<Reply>, k: Key, before: Option<Lease>): Option<Lease> {
    match op
    case OpAcquire(k', _, _) =>
      if k' == k && answer.Ok? && answer.value.Granted? then Some(answer.value.lease) else before
    case OpRenew(l, _) => if l.key == k && answer.Ok? && answer.value.Granted? then Some(answer.value.lease) else before
    case OpRelease(l) => if l.key == k && answer.Ok? then None else before
    case _ => before
  }

  // What the callers have been told about `k`: the lease most recently granted or renewed,
  // unless it was released since, or the run has been deleted since.
  function LastLease(f: StepFn, calls: seq<Call>, k: Key, o: Options): Option<Lease> {
    if calls == [] || k !in After(f, calls, o) then None
    else
      var n := |calls| - 1;
      Told(calls[n].op, Answer(f, calls, n, o), k, LastLease(f, calls[..n], k, o))
  }

  // ---- one step

  lemma StandIn(f: StepFn, s: Store, c: Call, o: Options) returns (t: Call)
    requires Conforms(f, o)
    ensures Stands(f, s, c, t, o)
  {
    assert ConformsAt(f, s, c, o);
    t :| Stands(f, s, c, t, o);
  }

  lemma AbstractLease(s: Store, c: Call, k: Key, o: Options)
    ensures var (s', r) := Step(s, c.op, c.draw, o);
      && (r.Ok? && (c.op.OpAcquire? || c.op.OpRenew?) ==> r.value.Granted?)
      && (k in s' ==> s'[k].lease == Told(c.op, r, k, if k in s then s[k].lease else None))
  {}

  // The lease of a run after one step is the one its answer tells of, or else the one before.
  lemma StepLease(f: StepFn, s: Store, c: Call, k: Key, o: Options)
    requires Conforms(f, o)
    ensures var (s', r) := f(s, c.op, c.draw, o);
      && (r.Ok? && (c.op.OpAcquire? || c.op.OpRenew?) ==> r.value.Granted?)
      && (k in s' ==> s'[k].lease == Told(c.op, r, k, if k in s then s[k].lease else None))
  {
    hide Step, Conforms;
    var t := StandIn(f, s, c, o);
    AbstractLease(s, t, k, o);
  }

  lemma StepWellFormed(f: StepFn, s: Store, c: Call, o: Options)
    requires Conforms(f, o) && WellFormed(s)
    ensures WellFormed(f(s, c.op, c.draw, o).0)
  {
    hide Step, Conforms, WellFormed;
    var t := StandIn(f, s, c, o);
    StepKeepsWellFormed(s, t.op, t.draw, o);
  }

  lemma AbstractGrant(s: Store, c: Call, o: Options)
    requires c.op.OpAcquire? && Step(s, c.op, c.draw, o).1.Ok?
    ensures Step(s, c.op, c.draw, o).1.value ==
      Granted(Lease(c.op.key, c.op.owner, c.draw.token, c.draw.now1 + c.op.ttl))
    ensures c.op.key in s && (s[c.op.key].lease.Some? ==> s[c.op.key].lease.value.expiresAt <= c.draw.now1)
    ensures c.op.key in Step(s, c.op, c.draw, o).0
  {}

  // A grant is of the drawn token and follows on no unexpired lease.
  lemma StepGrant(f: StepFn, s: Store, c: Call, o: Options)
    requires Conforms(f, o) && c.op.OpAcquire? && f(s, c.op, c.draw, o).1.Ok?
    ensures f(s, c.op, c.draw, o).1.value == Granted(Lease(c.op.key, c.op.owner, c.draw.token, c.draw.now1 + c.op.ttl))
    ensures c.op.key in s && (s[c.op.key].lease.Some? ==> s[c.op.key].lease.value.expiresAt <= c.draw.now1)
    ensures c.op.key in f(s, c.op, c.draw, o).0
  {
    hide Step, Conforms;
    var t := StandIn(f, s, c, o);
    AbstractGrant(s, t, o);
  }

  lemma AbstractPresented(s: Store, c: Call, o: Options)
    requires Presented(c.op).Some?
    ensures var l := Presented(c.op).value;
      var (s', r) := Step(s, c.op, c.draw, o);
      && (r.Err? ==> s' == s)
      && (r.Ok? ==>
        l.key in s && l.key in s' && Holds(s[l.key].lease, l, if c.op.OpRelease? then None else Some(c.draw.now1)))
      && (r.Ok? && c.op.OpRenew? ==> r.value.Granted? && r.value.lease.token == s[l.key].lease.value.token)
  {}

  // An operation presenting a lease succeeds only with the stored token, unexpired unless released,
  // and otherwise changes nothing. A renewal keeps the token.
  lemma StepPresented(f: StepFn, s: Store, c: Call, o: Options)
    requires Conforms(f, o) && Presented(c.op).Some?
    ensures var l := Presented(c.op).value;
      var (s', r) := f(s, c.op, c.draw, o);
      && (r.Err? ==> s' == s)
      && (r.Ok? ==>
        l.key in s && l.key in s' && Holds(s[l.key].lease, l, if c.op.OpRelease? then None else Some(c.draw.now1)))
      && (r.Ok? && c.op.OpRenew? ==> r.value.Granted? && r.value.lease.token == s[l.key].lease.value.token)
  {
    hide Step, Conforms, Holds;
    var t := StandIn(f, s, c, o);
    if t.op == c.op {
      AbstractPresented(s, t, o);
    } else {
      LoadChangesNothing(s, t, o);
    }
  }

  lemma LoadChangesNothing(s: Store, t: Call, o: Options)
    requires t.op.OpLoad?
    ensures Step(s, t.op, t.draw, o).0 == s
  {}

  // ---- runs

  lemma {:induction false} AfterWellFormed(f: StepFn, calls: seq<Call>, o: Options)
    requires Conforms(f, o)
    ensures WellFormed(After(f, calls, o))
  {
    hide Conforms;
    if calls != [] {
      var n := |calls| - 1;
      AfterWellFormed(f, calls[..n], o);
      StepWellFormed(f, After(f, calls[..n], o), calls[n], o);
    }
  }

  // The stored lease is exactly the one the callers were last told about.
  lemma {:induction false} StoredLeaseIsLastLease(f: StepFn, calls: seq<Call>, k: Key, o: Options)
    requires Conforms(f, o)
    ensures k in After(f, calls, o) ==> After(f, calls, o)[k].lease == LastLease(f, calls, k, o)
    ensures k !in After(f, calls, o) ==> LastLease(f, calls, k, o) == None
  {
    hide Conforms, Told;
    if calls != [] {
      var n := |calls| - 1;
      StoredLeaseIsLastLease(f, calls[..n], k, o);
      StepLease(f, After(f, calls[..n], o), calls[n], k, o);
    }
  }

  // One step leaves a token on `k` only by granting it there or by keeping the one already stored.
  lemma StepToken(f: StepFn, s: Store, c: Call, k: Key, o: Options)
    requires Conforms(f, o)
    requires var s' := f(s, c.op, c.draw, o).0; k in s' && s'[k].lease.Some?
    ensures var (s', r) := f(s, c.op, c.draw, o);
      var t := s'[k].lease.value.token;
      if c.op.OpAcquire? && c.op.key == k && r.Ok? then t == c.draw.token
      else k in s && s[k].lease.Some? && s[k].lease.value.token == t
  {
    hide Conforms;
    StepLease(f, s, c, k, o);
    var r := f(s, c.op, c.draw, o).1;
    if c.op.OpAcquire? && r.Ok? {
      StepGrant(f, s, c, o);
    } else if c.op.OpRenew? {
      StepPresented(f, s, c, o);
    }
  }

  lemma AnswerPrefix(f: StepFn, calls: seq<Call>, n: nat, i: nat, o: Options)
    requires i < n <= |calls|
    ensures calls[..n][..i] == calls[..i] && Answer(f, calls[..n], i, o) == Answer(f, calls, i, o)
    ensures forall k :: GrantedAt(f, calls[..n], i, k, o) == GrantedAt(f, calls, i, k, o)
  {
    assert calls[..n][..i] == calls[..i];
  }

  // Every lease alive on `k` carries the token of some grant on `k`, and no later grant exists.
  lemma {:induction false} StoredTokenIsLatestGrant(f: StepFn, calls: seq<Call>, k: Key, o: Options) returns (g: nat)
    requires Conforms(f, o)
    requires k in After(f, calls, o) && After(f, calls, o)[k].lease.Some?
    ensures GrantedAt(f, calls, g, k, o) && After(f, calls, o)[k].lease.value.token == calls[g].draw.token
    ensures forall i :: g < i < |calls| ==> !GrantedAt(f, calls, i, k, o)
  {
    hide Conforms;
    var n := |calls| - 1;
    StepToken(f, After(f, calls[..n], o), calls[n], k, o);
    if GrantedAt(f, calls, n, k, o) {
      g := n;
    } else {
      g := StoredTokenIsLatestGrant(f, calls[..n], k, o);
      AnswerPrefix(f, calls, n, g, o);
      forall i | g < i < |calls| ensures !GrantedAt(f, calls, i, k, o) {
        if i < n {
          AnswerPrefix(f, calls, n, i, o);
        }
      }
    }
  }

  // A step presenting a lease whose token is not the stored one fails and changes nothing.
  lemma StaleTokenRefused(f: StepFn, s: Store, c: Call, o: Options)
    requires Conforms(f, o) && Presented(c.op).Some?
    requires var l := Presented(c.op).value;
      l.key in s && s[l.key].lease.Some? ==> s[l.key].lease.value.token != l.token
    ensures f(s, c.op, c.draw, o).0 == s && f(s, c.op, c.draw, o).1.Err?
  {
    hide Conforms;
    StepPresented(f, s, c, o);
  }

  // Fencing: after a newer grant on the run, nothing presenting the older token succeeds or
  // changes anything, through renewals, releases, deletions and re-creations.
  lemma Fencing(f: StepFn, calls: seq<Call>, i: nat, j: nat, m: nat, k: Key, o: Options)
    requires Conforms(f, o) && FreshTokens(calls) && i < j < m < |calls|
    requires GrantedAt(f, calls, i, k, o) && GrantedAt(f, calls, j, k, o)
    requires var p := Presented(calls[m].op);
      p.Some? && p.value.key == k && p.value.token == calls[i].draw.token
    ensures Answer(f, calls, m, o).Err?
    ensures After(f, calls[..m + 1], o) == After(f, calls[..m], o)
  {
    hide Conforms;
    var before := After(f, calls[..m], o);
    if k in before && before[k].lease.Some? {
      var g := StoredTokenIsLatestGrant(f, calls[..m], k, o);
      AnswerPrefix(f, calls, m, g, o);
      AnswerPrefix(f, calls, m, j, o);
      assert g >= j;
    }
    StaleTokenRefused(f, before, calls[m], o);
    assert calls[..m + 1][..m] == calls[..m];
  }

  // A grant happens only when the lease last handed out on the run was released, went with the
  // deleted run, or has expired by the clock reading the grant is based on; and the new lease
  // carries the drawn token and expires `ttl` later.
  lemma GrantOnlyAfterExpiry(f: StepFn, calls: seq<Call>, i: nat, k: Key, o: Options)
    requires Conforms(f, o) && GrantedAt(f, calls, i, k, o)
    ensures var last := LastLease(f, calls[..i], k, o);
      last.Some? ==> last.value.expiresAt <= calls[i].draw.now1
    ensures Answer(f, calls, i, o).value == Granted(
      Lease(k, calls[i].op.owner, calls[i].draw.token, calls[i].draw.now1 + calls[i].op.ttl))
  {
    hide Conforms;
    StoredLeaseIsLastLease(f, calls[..i], k, o);
    StepGrant(f, After(f, calls[..i], o), calls[i], o);
  }

  // An operation presenting a lease succeeds only with the token last handed out, and an append
  // or renewal only before that lease's expiry.
  lemma OnlyTheHolderWrites(f: StepFn, calls: seq<Call>, m: nat, o: Options)
    requires Conforms(f, o)
    requires m < |calls| && Presented(calls[m].op).Some? && Answer(f, calls, m, o).Ok?
    ensures var lease := Presented(calls[m].op).value;
      var last := LastLease(f, calls[..m], lease.key, o);
      && last.Some? && last.value.token == lease.token
      && (!calls[m].op.OpRelease? ==> calls[m].draw.now1 < last.value.expiresAt)
  {
    hide Conforms;
    StoredLeaseIsLastLease(f, calls[..m], Presented(calls[m].op).value.key, o);
    StepPresented(f, After(f, calls[..m], o), calls[m], o);
  }

  // The run exists after each of calls[..i], ..., calls[..j].
  ghost predicate Alive(f: StepFn, calls: seq<Call>, i: nat, j: nat, k: Key, o: Options) {
    i <= j <= |calls| && forall x :: i <= x <= j ==> k in After(f, calls[..x], o)
  }

  predicate AppendedAt(f: StepFn, calls: seq<Call>, i: nat, k: Key, o: Options)
    requires i < |calls|
  {
    calls[i].op.OpAppend? && calls[i].op.lease.key == k && Answer(f, calls, i, o).Ok?
  }

  function Appends(f: StepFn, calls: seq<Call>, i: nat, j: nat, k: Key, o: Options): nat
    requires i <= j <= |calls|
  {
    if i == j then 0
    else Appends(f, calls, i, j - 1, k, o) + if AppendedAt(f, calls, j - 1, k, o) then 1 else 0
  }

  lemma AbstractRevision(s: Store, c: Call, k: Key, o: Options)
    requires WellFormed(s) && k in s
    requires k in Step(s, c.op, c.draw, o).0
    ensures var (s', r) := Step(s, c.op, c.draw, o);
      var (a, b) := (s[k], s'[k]);
      && b.snapshot.revision ==
        a.snapshot.revision + (if c.op.OpAppend? && c.op.lease.key == k && r.Ok? then 1 else 0)
      && a.events <= b.events
      && b.snapshot.eventSequence - |b.events| == a.snapshot.eventSequence - |a.events|
      && (c.op.OpAppend? && c.op.lease.key == k && r.Ok? ==> a.snapshot.revision == c.op.expected)
  {
    match c.op {
      case OpAppend(lease, expected, events, snapshot) =>
        AppendKeepsWellFormed(s, lease, expected, events, snapshot, c.draw, o);
      case _ =>
    }
  }

  lemma StepRevision(f: StepFn, s: Store, c: Call, k: Key, o: Options)
    requires Conforms(f, o) && WellFormed(s) && k in s
    requires k in f(s, c.op, c.draw, o).0
    ensures var (s', r) := f(s, c.op, c.draw, o);
      var (a, b) := (s[k], s'[k]);
      && b.snapshot.revision ==
        a.snapshot.revision + (if c.op.OpAppend? && c.op.lease.key == k && r.Ok? then 1 else 0)
      && a.events <= b.events
      && b.snapshot.eventSequence - |b.events| == a.snapshot.eventSequence - |a.events|
      && (c.op.OpAppend? && c.op.lease.key == k && r.Ok? ==> a.snapshot.revision == c.op.expected)
  {
    hide Step, Conforms, WellFormed;
    var t := StandIn(f, s, c, o);
    AbstractRevision(s, t, k, o);
  }

  // While a run lives, its revision counts its successful appends and its events only grow at the end.
  lemma {:induction false} RevisionCountsAppends(f: StepFn, calls: seq<Call>, i: nat, j: nat, k: Key, o: Options)
    requires Conforms(f, o) && Alive(f, calls, i, j, k, o)
    ensures var (a, b) := (After(f, calls[..i], o)[k], After(f, calls[..j], o)[k]);
      && b.snapshot.revision == a.snapshot.revision + Appends(f, calls, i, j, k, o)
      && a.events <= b.events
      && b.snapshot.eventSequence - |b.events| == a.snapshot.eventSequence - |a.events|
  {
    hide Conforms, WellFormed;
    if i < j {
      RevisionCountsAppends(f, calls, i, j - 1, k, o);
      assert calls[..j][..j - 1] == calls[..j - 1];
      AfterWellFormed(f, calls[..j - 1], o);
      StepRevision(f, After(f, calls[..j - 1], o), calls[j - 1], k, o);
    }
  }

  // Two appends that expect the same revision of a living run never both succeed.
  lemma OneAppendPerRevision(f: StepFn, calls: seq<Call>, i: nat, j: nat, o: Options)
    requires Conforms(f, o) && i < j < |calls| && calls[i].op.OpAppend? && calls[j].op.OpAppend?
    requires calls[i].op.lease.key == calls[j].op.lease.key
    requires Alive(f, calls, i, j, calls[i].op.lease.key, o)
    requires Answer(f, calls, i, o).Ok? && Answer(f, calls, j, o).Ok?
    ensures calls[i].op.expected < calls[j].op.expected
  {
    hide Conforms, WellFormed;
    var k := calls[i].op.lease.key;
    RevisionCountsAppends(f, calls, i, j, k, o);
    AppendsPositive(f, calls, i, j, k, o);
    AppendExpects(f, calls, i, k, o);
    AppendExpects(f, calls, j, k, o);
  }

  lemma AppendExpects(f: StepFn, calls: seq<Call>, i: nat, k: Key, o: Options)
    requires Conforms(f, o) && i < |calls| && AppendedAt(f, calls, i, k, o)
    ensures k in After(f, calls[..i], o) && After(f, calls[..i], o)[k].snapshot.revision == calls[i].op.expected
  {
    hide Conforms, WellFormed;
    AfterWellFormed(f, calls[..i], o);
    StepPresented(f, After(f, calls[..i], o), calls[i], o);
    StepRevision(f, After(f, calls[..i], o), calls[i], k, o);
  }

  lemma {:induction false} AppendsPositive(f: StepFn, calls: seq<Call>, i: nat, j: nat, k: Key, o: Options)
    requires i < j <= |calls| && AppendedAt(f, calls, i, k, o)
    ensures Appends(f, calls, i, j, k, o) > 0
  {
    if i + 1 < j {
      AppendsPositive(f, calls, i, j - 1, k, o);
    }
  }
}
