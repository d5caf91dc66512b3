/**
 The abstract run store: one map of leased, revision-checked, append-only runs, and what each
 operation of the RunStore trait does to it. Each operation is one atomic step.
 */
module RunStoreSpec {
  import opened Wrappers
  import opened RunRecords

  datatype Run = Run(snapshot: Snapshot, events: seq<Event>, lease: Option<Lease>)
  type Store = map<Key, Run>

  // The caller's lease matches the stored one, and at `now` (if given) that has not expired.
  predicate Holds(stored: Option<Lease>, lease: Lease, now: Option<Time>) {
    stored.Some? && stored.value.token == lease.token && (now.Some? ==> stored.value.expiresAt > now.value)
  }

  function Create(s: Store, snapshot: Snapshot, d: Draw, o: Options): (Store, Outcome<()>) {
    var k := Key(snapshot.tenant, snapshot.run);
    var valid := ValidateSnapshot(snapshot);
    if valid.Err? then (s, Err(valid.error))
    else if k in s then (s, Err(AlreadyExists))
    else match PrepareCreate(snapshot, d.now0, o)
      case Err(e) => (s, Err(e))
      case Ok(prepared) => (s[k := Run(prepared, [], None)], Ok(()))
  }

  function Load(s: Store, k: Key): Outcome<(Snapshot, seq<Event>)> {
    if k in s then Ok((s[k].snapshot, s[k].events)) else Err(NotFound)
  }

  function Append(
    s: Store, lease: Lease, expected: u64, events: seq<Event>, snapshot: Snapshot, d: Draw, o: Options)
    : (Store, Outcome<Snapshot>)
  {
    var k := lease.key;
    if k !in s then (s, Err(NotFound))
    else if !Holds(s[k].lease, lease, Some(d.now1)) then (s, Err(LeaseLost))
    else if s[k].snapshot.revision != expected then (s, Err(Conflict))
    else match PrepareAppend(k, expected, s[k].snapshot.eventSequence, events, snapshot, d, o)
      case Err(e) => (s, Err(e))
      case Ok((updated, stamped)) => (s[k := Run(updated, s[k].events + stamped, s[k].lease)], Ok(updated))
  }

  function Acquire(s: Store, k: Key, owner: string, ttl: nat, d: Draw): (Store, Outcome<Lease>) {
    if owner == "" then (s, Err(Invalid("lease owner is required")))
    else if Expiry(d.now0, ttl).Err? then (s, Err(Expiry(d.now0, ttl).error))
    else if k !in s then (s, Err(NotFound))
    else if s[k].lease.Some? && s[k].lease.value.expiresAt > d.now1 then (s, Err(LeaseHeld))
    else match Expiry(d.now1, ttl)
      case Err(e) => (s, Err(e))
      case Ok(until) =>
        var lease := Lease(k, owner, d.token, until);
        (s[k := s[k].(lease := Some(lease))], Ok(lease))
  }

  function Renew(s: Store, lease: Lease, ttl: nat, d: Draw): (Store, Outcome<Lease>) {
    var k := lease.key;
    if Expiry(d.now0, ttl).Err? then (s, Err(Expiry(d.now0, ttl).error))
    else if k !in s then (s, Err(NotFound))
    else if !Holds(s[k].lease, lease, Some(d.now1)) then (s, Err(LeaseLost))
    else match Expiry(d.now2, ttl)
      case Err(e) => (s, Err(e))
      case Ok(until) =>
        var renewed := s[k].lease.value.(expiresAt := until);
        (s[k := s[k].(lease := Some(renewed))], Ok(renewed))
  }

  function Release(s: Store, lease: Lease): (Store, Outcome<()>) {
    var k := lease.key;
    if k !in s then (s, Err(NotFound))
    else if !Holds(s[k].lease, lease, None) then (s, Err(LeaseLost))
    else (s[k := s[k].(lease := None)], Ok(()))
  }

  function DeleteRun(s: Store, k: Key): (Store, Outcome<()>) {
    if k in s then (s - {k}, Ok(())) else (s, Err(NotFound))
  }

  function DeleteTenant(s: Store, tenant: string): Store {
    map k | k in s && k.tenant != tenant :: s[k]
  }

  predicate Expired(r: Run, now: Time) {
    r.snapshot.retainUntil.Some? && r.snapshot.retainUntil.value <= now
  }

  function Doomed(s: Store, tenants: set<string>, now: Time): set<Key> {
    set k | k in s && k.tenant in tenants && Expired(s[k], now)
  }

  // Retention over the runs of some tenants; the count is of the runs removed.
  function Retain(s: Store, tenants: set<string>, now: Time): (Store, nat) {
    (s - Doomed(s, tenants, now), |Doomed(s, tenants, now)|)
  }

  lemma RetainNone(s: Store, now: Time)
    ensures Retain(s, {}, now) == (s, 0)
  {
    assert Doomed(s, {}, now) == {};
    assert s - {} == s;
  }

  lemma DoomedOneMore(s: Store, done: set<string>, t: string, now: Time)
    requires t !in done
    ensures Doomed(s, done + {t}, now) == Doomed(s, done, now) + Doomed(s - Doomed(s, done, now), {t}, now)
    ensures Doomed(s, done, now) !! Doomed(s - Doomed(s, done, now), {t}, now)
  {
    var (all, a) := (Doomed(s, done + {t}, now), Doomed(s, done, now));
    var b := Doomed(s - a, {t}, now);
    forall k ensures k in all <==> k in a || k in b {
      if k in s && k.tenant == t {
        assert k !in a && (s - a)[k] == s[k];
      }
    }
  }

  lemma RemoveTwice(s: Store, a: set<Key>, b: set<Key>)
    ensures s - (a + b) == (s - a) - b
  {}

  // Sweeping one more tenant adds that tenant to the tenants swept.
  lemma RetainOneMore(s: Store, done: set<string>, t: string, now: Time)
    requires t !in done
    ensures Retain(s, done + {t}, now).0 == Retain(Retain(s, done, now).0, {t}, now).0
    ensures Retain(s, done + {t}, now).1 == Retain(s, done, now).1 + Retain(Retain(s, done, now).0, {t}, now).1
  {
    hide Doomed;
    DoomedOneMore(s, done, t, now);
    RemoveTwice(s, Doomed(s, done, now), Doomed(s - Doomed(s, done, now), {t}, now));
  }

  function Tenants(s: Store): set<string> {
    set k | k in s :: k.tenant
  }

  datatype Op =
    | OpCreate(snapshot: Snapshot)
    | OpLoad(key: Key)
    | OpAppend(lease: Lease, expected: u64, events: seq<Event>, snapshot: Snapshot)
    | OpAcquire(key: Key, owner: string, ttl: nat)
    | OpRenew(lease: Lease, ttl: nat)
    | OpRelease(lease: Lease)
    | OpDeleteRun(key: Key)
    | OpDeleteTenant(tenant: string)
    | OpRetain(now: Time)
    | OpRetainTenant(tenant: string, now: Time)   // one tenant's part of a sweep on disk

  datatype Reply =
    | Done | Loaded(snapshot: Snapshot, events: seq<Event>) | Appended(updated: Snapshot)
    | Granted(lease: Lease) | Deleted(count: nat)

  function Wrap<T>(r: Outcome<T>, f: T -> Reply): Outcome<Reply> {
    match r case Ok(v) => Ok(f(v)) case Err(e) => Err(e)
  }

  function Step(s: Store, op: Op, d: Draw, o: Options): (Store, Outcome<Reply>) {
    match op
    case OpCreate(snapshot) =>
      var (s', r) := Create(s, snapshot, d, o); (s', Wrap(r, _ => Done))
    case OpLoad(k) => (s, Wrap(Load(s, k), (p: (Snapshot, seq<Event>)) => Loaded(p.0, p.1)))
    case OpAppend(lease, expected, events, snapshot) =>
      var (s', r) := Append(s, lease, expected, events, snapshot, d, o); (s', Wrap(r, u => Appended(u)))
    case OpAcquire(k, owner, ttl) =>
      var (s', r) := Acquire(s, k, owner, ttl, d); (s', Wrap(r, l => Granted(l)))
    case OpRenew(lease, ttl) =>
      var (s', r) := Renew(s, lease, ttl, d); (s', Wrap(r, l => Granted(l)))
    case OpRelease(lease) =>
      var (s', r) := Release(s, lease); (s', Wrap(r, _ => Done))
    case OpDeleteRun(k) =>
      var (s', r) := DeleteRun(s, k); (s', Wrap(r, _ => Done))
    case OpDeleteTenant(t) => (DeleteTenant(s, t), Ok(Done))
    case OpRetain(now) =>
      var (s', n) := Retain(s, Tenants(s), now); (s', Ok(Deleted(n)))
    case OpRetainTenant(tenant, now) =>
      var (s', n) := Retain(s, {tenant}, now); (s', Ok(Deleted(n)))
  }

  // Consecutive sequence numbers ending at the snapshot's event sequence, all under the run's key.
  ghost predicate WellFormedRun(k: Key, r: Run) {
    && r.snapshot.tenant == k.tenant && r.snapshot.run == k.run
    && r.snapshot.schemaVersion == SCHEMA_VERSION
    && |r.events| <= r.snapshot.eventSequence
    && (forall i :: 0 <= i < |r.events| ==>
      && r.events[i].sequence == r.snapshot.eventSequence - |r.events| + i + 1
      && r.events[i].tenant == k.tenant && r.events[i].run == k.run)
    && (r.lease.Some? ==> r.lease.value.key == k)
  }

  ghost predicate WellFormed(s: Store) {
    forall k :: k in s ==> WellFormedRun(k, s[k])
  }

  lemma AppendKeepsWellFormed(
    s: Store, lease: Lease, expected: u64, events: seq<Event>, snapshot: Snapshot, d: Draw, o: Options)
    requires WellFormed(s)
    ensures WellFormed(Append(s, lease, expected, events, snapshot, d, o).0)
    ensures var (s', r) := Append(s, lease, expected, events, snapshot, d, o);
      var k := lease.key;
      if r.Err? then s' == s
      else
        && k in s && s'.Keys == s.Keys && (forall other :: other in s && other != k ==> s'[other] == s[other])
        && s[k].snapshot.revision == expected && s'[k].snapshot.revision == expected + 1
        && |s'[k].events| == |s[k].events| + |events| && s[k].events <= s'[k].events
        && s'[k].snapshot.eventSequence == s[k].snapshot.eventSequence + |events|
        && s'[k].lease == s[k].lease
  {
    var k := lease.key;
    if Append(s, lease, expected, events, snapshot, d, o).1.Ok? {
      PrepareAppendShape(k, expected, s[k].snapshot.eventSequence, events, snapshot, d, o);
    }
  }

  lemma StepKeepsWellFormed(s: Store, op: Op, d: Draw, o: Options)
    requires WellFormed(s)
    ensures WellFormed(Step(s, op, d, o).0)
  {
    match op {
      case OpAppend(lease, expected, events, snapshot) =>
        AppendKeepsWellFormed(s, lease, expected, events, snapshot, d, o);
      case _ =>
    }
  }
}
