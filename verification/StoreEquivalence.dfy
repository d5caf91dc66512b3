/** The two stores, driven by the same calls, clocks and draws, are the same abstract store. */
module StoreEquivalence {
  import opened Wrappers
  import opened RunRecords
  import opened RunStoreSpec
  import opened RunHistory
  import opened FilesystemStores
  import opened PostgresStores

  // What a caller can check before the call: IDs the filesystem accepts, numbers a BIGINT holds,
  // and one clock reading for both halves of a renewal.
  predicate Comparable(s: Store, c: Call) {
    SafeOp(c.op) &&
    match c.op
    case OpCreate(snapshot) => Fits(snapshot.revision) && Fits(snapshot.eventSequence)
    case OpAppend(lease, expected, events, _) =>
      Fits(expected + 1) && (lease.key in s ==> Fits(s[lease.key].snapshot.eventSequence + |events|))
    case OpRenew(_, _) => c.draw.now1 == c.draw.now2
    case _ => true
  }

  // PostgreSQL prepares a snapshot before it looks for the run, so when both would complain it
  // reports the preparation's error instead of AlreadyExists.
  predicate PreparesInVain(s: Store, c: Call, o: Options) {
    c.op.OpCreate? && Key(c.op.snapshot.tenant, c.op.snapshot.run) in s
    && ValidateSnapshot(c.op.snapshot).Ok? && PrepareCreate(c.op.snapshot, c.draw.now0, o).Err?
  }

  // The one renaming: a renewal or release of a missing run is LeaseLost to PostgreSQL.
  function Renamed(op: Op, r: Outcome<Reply>): Outcome<Reply> {
    if (op.OpRenew? || op.OpRelease?) && r == Err(NotFound) then Err(LeaseLost) else r
  }

  lemma CreatePrepares(snapshot: Snapshot, now: Time, o: Options)
    requires PrepareCreate(snapshot, now, o).Ok?
    ensures var p := PrepareCreate(snapshot, now, o).value;
      p.tenant == snapshot.tenant && p.run == snapshot.run
      && p.revision == snapshot.revision && p.eventSequence == snapshot.eventSequence
  {}

  // One step: equal states always, equal answers up to the renaming, and exactly one other case.
  lemma StepsAgree(s: Store, c: Call, o: Options)
    requires Comparable(s, c)
    ensures FsStep(s, c.op, c.draw, o) == Step(s, c.op, c.draw, o)
    ensures PgStep(s, c.op, c.draw, o).0 == FsStep(s, c.op, c.draw, o).0
    ensures var (fs, pg) := (FsStep(s, c.op, c.draw, o).1, PgStep(s, c.op, c.draw, o).1);
      if PreparesInVain(s, c, o) then fs == Err(AlreadyExists) && pg.Err?
      else pg == Renamed(c.op, fs)
  {
    hide PrepareCreate, PrepareAppend;
    match c.op {
      case OpCreate(snapshot) =>
        if PrepareCreate(snapshot, c.draw.now0, o).Ok? {
          CreatePrepares(snapshot, c.draw.now0, o);
        }
        InvalidIsNotPrepared(snapshot, c.draw.now0, o);
      case OpAppend(lease, expected, events, snapshot) =>
        if Append(s, lease, expected, events, snapshot, c.draw, o).1.Ok? {
          PrepareAppendShape(lease.key, expected, s[lease.key].snapshot.eventSequence, events, snapshot, c.draw, o);
        }
      case OpRenew(_, _) =>
        assert c.draw.(now2 := c.draw.now1) == c.draw;
      case _ =>
    }
  }

  lemma InvalidIsNotPrepared(snapshot: Snapshot, now: Time, o: Options)
    ensures ValidateSnapshot(snapshot).Err? ==> PrepareCreate(snapshot, now, o) == Err(ValidateSnapshot(snapshot).error)
  {}

  // Outside the BIGINT range an append that the filesystem takes is refused, and nothing changes:
  // PostgreSQL accepts an append if and only if the filesystem does and both numbers fit.
  lemma WideAppendRefused(s: Store, c: Call, o: Options)
    requires c.op.OpAppend?
    ensures var (fs, pg) := (Step(s, c.op, c.draw, o), PgStep(s, c.op, c.draw, o));
      && (pg.1.Ok? <==>
        fs.1.Ok? && Fits(c.op.expected + 1) && Fits(s[c.op.lease.key].snapshot.eventSequence + |c.op.events|))
      && (pg.1.Ok? ==> pg == fs) && (pg.1.Err? ==> pg.0 == s)
  {
    var k := c.op.lease.key;
    if Step(s, c.op, c.draw, o).1.Ok? {
      PrepareAppendShape(k, c.op.expected, s[k].snapshot.eventSequence, c.op.events, c.op.snapshot, c.draw, o);
    }
  }

  // ---- either store, in every run

  datatype Backend = OnDisk | InPostgres

  function StepOf(b: Backend): StepFn {
    match b case OnDisk => FsStep case InPostgres => PgStep
  }

  // On disk an unsafe ID is refused and everything else is the abstract step, for any clock readings.
  lemma FilesystemConforms(o: Options)
    ensures Conforms(FsStep, o)
  {
    hide Step;
    forall s, c ensures ConformsAt(FsStep, s, c, o) {
      if SafeOp(c.op) || RefusedEarly(c.op, c.draw) {
        assert Stands(FsStep, s, c, c, o);
      } else {
        var t := Nothing(c);
        NothingHappens(s, c, o);
        assert Stands(FsStep, s, c, t, o);
      }
    }
  }

  // A call that changes nothing.
  function Nothing(c: Call): Call {
    Call(OpLoad(Key("", "")), c.draw)
  }

  lemma NothingHappens(s: Store, c: Call, o: Options)
    ensures Step(s, Nothing(c).op, Nothing(c).draw, o).0 == s
  {}

  // PostgreSQL refuses more creations and appends, and reads its clock once in a renewal.
  lemma PostgresConforms(o: Options)
    ensures Conforms(PgStep, o)
  {
    forall s, c ensures ConformsAt(PgStep, s, c, o) {
      PostgresConformsAt(s, c, o);
    }
  }

  lemma PostgresConformsAt(s: Store, c: Call, o: Options)
    ensures ConformsAt(PgStep, s, c, o)
  {
    hide PrepareCreate, PrepareAppend;
    var t := if PgStep(s, c.op, c.draw, o).1.Err? && (c.op.OpCreate? || c.op.OpAppend?) then Nothing(c)
      else if c.op.OpRenew? then c.(draw := c.draw.(now2 := c.draw.now1))
      else c;
    NothingHappens(s, c, o);
    if c.op.OpCreate? {
      InvalidIsNotPrepared(c.op.snapshot, c.draw.now0, o);
      if PrepareCreate(c.op.snapshot, c.draw.now0, o).Ok? {
        CreatePrepares(c.op.snapshot, c.draw.now0, o);
      }
    }
    assert Stands(PgStep, s, c, t, o);
  }

  lemma BackendConforms(b: Backend, o: Options)
    ensures Conforms(StepOf(b), o)
  {
    match b case OnDisk => FilesystemConforms(o); case InPostgres => PostgresConforms(o);
  }

  // Fencing, for either store, every run of calls and all clock readings.
  lemma StoreFencing(b: Backend, calls: seq<Call>, i: nat, j: nat, m: nat, k: Key, o: Options)
    requires FreshTokens(calls) && i < j < m < |calls|
    requires GrantedAt(StepOf(b), calls, i, k, o) && GrantedAt(StepOf(b), calls, j, k, o)
    requires var p := Presented(calls[m].op);
      p.Some? && p.value.key == k && p.value.token == calls[i].draw.token
    ensures Answer(StepOf(b), calls, m, o).Err?
    ensures After(StepOf(b), calls[..m + 1], o) == After(StepOf(b), calls[..m], o)
  {
    hide *;
    BackendConforms(b, o);
    Fencing(StepOf(b), calls, i, j, m, k, o);
  }

  lemma StoreGrantOnlyAfterExpiry(b: Backend, calls: seq<Call>, i: nat, k: Key, o: Options)
    requires GrantedAt(StepOf(b), calls, i, k, o)
    ensures var last := LastLease(StepOf(b), calls[..i], k, o);
      last.Some? ==> last.value.expiresAt <= calls[i].draw.now1
    ensures Answer(StepOf(b), calls, i, o).value == Granted(
      Lease(k, calls[i].op.owner, calls[i].draw.token, calls[i].draw.now1 + calls[i].op.ttl))
  {
    BackendConforms(b, o);
    GrantOnlyAfterExpiry(StepOf(b), calls, i, k, o);
  }

  lemma StoreOnlyTheHolderWrites(b: Backend, calls: seq<Call>, m: nat, o: Options)
    requires m < |calls| && Presented(calls[m].op).Some? && Answer(StepOf(b), calls, m, o).Ok?
    ensures var lease := Presented(calls[m].op).value;
      var last := LastLease(StepOf(b), calls[..m], lease.key, o);
      && last.Some? && last.value.token == lease.token
      && (!calls[m].op.OpRelease? ==> calls[m].draw.now1 < last.value.expiresAt)
  {
    BackendConforms(b, o);
    OnlyTheHolderWrites(StepOf(b), calls, m, o);
  }

  lemma StoreOneAppendPerRevision(b: Backend, calls: seq<Call>, i: nat, j: nat, o: Options)
    requires i < j < |calls| && calls[i].op.OpAppend? && calls[j].op.OpAppend?
    requires calls[i].op.lease.key == calls[j].op.lease.key
    requires Alive(StepOf(b), calls, i, j, calls[i].op.lease.key, o)
    requires Answer(StepOf(b), calls, i, o).Ok? && Answer(StepOf(b), calls, j, o).Ok?
    ensures calls[i].op.expected < calls[j].op.expected
  {
    BackendConforms(b, o);
    OneAppendPerRevision(StepOf(b), calls, i, j, o);
  }

  lemma StoreRevisionCountsAppends(b: Backend, calls: seq<Call>, i: nat, j: nat, k: Key, o: Options)
    requires Alive(StepOf(b), calls, i, j, k, o)
    ensures var (x, y) := (After(StepOf(b), calls[..i], o)[k], After(StepOf(b), calls[..j], o)[k]);
      && y.snapshot.revision == x.snapshot.revision + Appends(StepOf(b), calls, i, j, k, o)
      && x.events <= y.events
      && y.snapshot.eventSequence - |y.events| == x.snapshot.eventSequence - |x.events|
  {
    BackendConforms(b, o);
    RevisionCountsAppends(StepOf(b), calls, i, j, k, o);
  }

  lemma SafeStep(s: Store, c: Call, o: Options)
    requires SafeOp(c.op) || RefusedEarly(c.op, c.draw)
    ensures FsStep(s, c.op, c.draw, o) == Step(s, c.op, c.draw, o)
  {}

  // With safe IDs the store on disk is the abstract one, whatever the clock readings.
  lemma {:induction false} FilesystemIsAbstract(calls: seq<Call>, o: Options)
    requires forall c <- calls :: SafeOp(c.op) || RefusedEarly(c.op, c.draw)
    ensures After(FsStep, calls, o) == After(Step, calls, o)
  {
    hide Step, FsStep, SafeOp, RefusedEarly;
    if calls != [] {
      var n := |calls| - 1;
      assert calls[n] in calls && forall c <- calls[..n] :: c in calls;
      FilesystemIsAbstract(calls[..n], o);
      SafeStep(After(Step, calls[..n], o), calls[n], o);
    }
  }

  lemma FilesystemAnswers(calls: seq<Call>, i: nat, o: Options)
    requires i < |calls| && forall c <- calls :: SafeOp(c.op) || RefusedEarly(c.op, c.draw)
    ensures Answer(FsStep, calls, i, o) == Answer(Step, calls, i, o)
  {
    hide Step, FsStep, SafeOp, RefusedEarly;
    assert calls[i] in calls && forall c <- calls[..i] :: c in calls;
    FilesystemIsAbstract(calls[..i], o);
    SafeStep(After(Step, calls[..i], o), calls[i], o);
  }

  // ---- the two stores, call by call

  // Every run of comparable calls leaves both stores in the abstract store's state.
  lemma {:induction false} StoresAgree(calls: seq<Call>, o: Options)
    requires forall i :: 0 <= i < |calls| ==> Comparable(After(Step, calls[..i], o), calls[i])
    ensures After(FsStep, calls, o) == After(Step, calls, o) && After(PgStep, calls, o) == After(Step, calls, o)
  {
    if calls != [] {
      var n := |calls| - 1;
      forall i | 0 <= i < n ensures Comparable(After(Step, calls[..n][..i], o), calls[..n][i]) {
        assert calls[..n][..i] == calls[..i];
      }
      StoresAgree(calls[..n], o);
      hide Step, FsStep, PgStep, Comparable, PreparesInVain;
      assert calls[..n] == calls[..|calls| - 1];
      StepsAgree(After(Step, calls[..n], o), calls[n], o);
    }
  }

  // And it answers every call alike.
  lemma AnswersAgree(calls: seq<Call>, i: nat, o: Options)
    requires i < |calls|
    requires forall j :: 0 <= j < |calls| ==> Comparable(After(Step, calls[..j], o), calls[j])
    ensures var (fs, pg) := (Answer(FsStep, calls, i, o), Answer(PgStep, calls, i, o));
      && fs == Answer(Step, calls, i, o)
      && (if PreparesInVain(After(Step, calls[..i], o), calls[i], o) then fs == Err(AlreadyExists) && pg.Err?
          else pg == Renamed(calls[i].op, fs))
  {
    hide Step, FsStep, PgStep, Comparable, PreparesInVain;
    forall j | 0 <= j < i ensures Comparable(After(Step, calls[..i][..j], o), calls[..i][j]) {
      assert calls[..i][..j] == calls[..j];
    }
    StoresAgree(calls[..i], o);
    StepsAgree(After(Step, calls[..i], o), calls[i], o);
  }

  // A sweep on disk, one tenant at a time and with any other calls in between, deletes at each of its
  // steps exactly the tenant's runs expired at the sweep's time; uninterrupted it is the whole sweep.
  lemma TenantSweep(s: Store, tenant: string, now: Time, d: Draw, o: Options)
    ensures var (s', r) := FsStep(s, OpRetainTenant(tenant, now), d, o);
      && r == Ok(Deleted(|s| - |s'|))
      && (forall k :: k in s' <==> k in s && !(k.tenant == tenant && Expired(s[k], now)))
      && (forall k :: k in s' ==> s'[k] == s[k])
  {
    hide FsStep;
    TenantStep(s, tenant, now, d, o);
    FewerRuns(s, Doomed(s, {tenant}, now));
  }

  lemma FewerRuns(s: Store, gone: set<Key>)
    requires gone <= s.Keys
    ensures |s - gone| == |s| - |gone| && forall k :: k in s - gone <==> k in s && k !in gone
  {
    assert (s - gone).Keys == s.Keys - gone;
    assert |s| == |s.Keys| && |s - gone| == |(s - gone).Keys|;
  }

  lemma TenantStep(s: Store, tenant: string, now: Time, d: Draw, o: Options)
    ensures FsStep(s, OpRetainTenant(tenant, now), d, o) ==
      (Retain(s, {tenant}, now).0, Ok(Deleted(Retain(s, {tenant}, now).1)))
  {}

  // The calls of one uninterrupted sweep.
  function Sweep(tenants: seq<string>, now: Time, d: Draw): seq<Call> {
    seq(|tenants|, i requires 0 <= i < |tenants| => Call(OpRetainTenant(tenants[i], now), d))
  }

  function RunFrom(f: StepFn, s: Store, calls: seq<Call>, o: Options): Store {
    if calls == [] then s
    else var n := |calls| - 1; f(RunFrom(f, s, calls[..n], o), calls[n].op, calls[n].draw, o).0
  }

  lemma {:induction false} UninterruptedSweep(s: Store, tenants: seq<string>, now: Time, d: Draw, o: Options)
    requires forall i, j :: 0 <= i < j < |tenants| ==> tenants[i] != tenants[j]
    ensures RunFrom(FsStep, s, Sweep(tenants, now, d), o) == Retain(s, (set t | t in tenants), now).0
  {
    hide *;
    if tenants == [] {
      NoSweep(s, now, d, o);
      assert (set t | t in tenants) == {};
    } else {
      var before, t := tenants[..|tenants| - 1], tenants[|tenants| - 1];
      assert tenants == before + [t];
      UninterruptedSweep(s, before, now, d, o);
      SweepMore(s, before, t, now, d, o);
      TenantStep(Retain(s, (set t | t in before), now).0, t, now, d, o);
      assert (set t | t in tenants) == (set t | t in before) + {t};
      RetainOneMore(s, (set t | t in before), t, now);
    }
  }

  lemma NoSweep(s: Store, now: Time, d: Draw, o: Options)
    ensures RunFrom(FsStep, s, Sweep([], now, d), o) == s == Retain(s, {}, now).0
  {
    RetainNone(s, now);
  }

  lemma SweepMore(s: Store, before: seq<string>, t: string, now: Time, d: Draw, o: Options)
    ensures RunFrom(FsStep, s, Sweep(before + [t], now, d), o) ==
      FsStep(RunFrom(FsStep, s, Sweep(before, now, d), o), OpRetainTenant(t, now), d, o).0
  {
    hide FsStep;
    var calls := Sweep(before + [t], now, d);
    assert calls[..|calls| - 1] == Sweep(before, now, d);
  }
}
