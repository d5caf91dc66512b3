/**
 The PostgreSQL store: a row of columns per run plus one row per event, changed inside a transaction
 that holds the run's row lock (pg.rs). Deleting a run row is taken to remove its event rows.
 */
module PostgresStores {
  import opened Wrappers
  import opened RunRecords
  import opened RunStoreSpec

  datatype Row = Row(
    revision: int, eventSequence: int, snapshot: Snapshot, retainUntil: Option<Time>,
    leaseOwner: Option<string>, leaseToken: Option<Token>, leaseUntil: Option<Time>,
    createdAt: Time, updatedAt: Time)

  type EventTable = map<(Key, int), Event>

  const TOO_WIDE: Error := Invalid("value exceeds PostgreSQL BIGINT")

  predicate Fits(n: int) {
    n <= I64_MAX
  }

  // SELECT ... WHERE key = k AND sequence <= n ORDER BY sequence
  function EventsUpTo(t: EventTable, k: Key, n: nat): seq<Event> {
    if n == 0 then []
    else EventsUpTo(t, k, n - 1) + if (k, n) in t then [t[(k, n)]] else []
  }

  function RowLease(k: Key, r: Row): Option<Lease> {
    if r.leaseToken.Some? && r.leaseOwner.Some? && r.leaseUntil.Some?
    then Some(Lease(k, r.leaseOwner.value, r.leaseToken.value, r.leaseUntil.value)) else None
  }

  // The columns repeat what the snapshot says, and the lease columns are set and cleared together.
  ghost predicate ColumnsAgree(k: Key, r: Row) {
    && r.revision == r.snapshot.revision && r.eventSequence == r.snapshot.eventSequence
    && r.retainUntil == r.snapshot.retainUntil
    && r.leaseToken.Some? == r.leaseOwner.Some? == r.leaseUntil.Some?
    && Fits(r.revision) && Fits(r.eventSequence)
  }

  // Each event row sits under its own number, within its run's event sequence.
  ghost predicate EventRowsAgree(rows: map<Key, Row>, t: EventTable) {
    forall k, n :: (k, n) in t ==>
      k in rows && 1 <= n <= rows[k].eventSequence && t[(k, n)].sequence == n
  }

  lemma {:induction false} EventsUpToSame(t: EventTable, u: EventTable, k: Key, n: nat)
    requires forall i :: 1 <= i <= n ==> ((k, i) in t <==> (k, i) in u)
    requires forall i :: 1 <= i <= n && (k, i) in t ==> t[(k, i)] == u[(k, i)]
    ensures EventsUpTo(t, k, n) == EventsUpTo(u, k, n)
  {
    if n > 0 {
      EventsUpToSame(t, u, k, n - 1);
    }
  }

  // The rows an append inserts, one statement per event.
  function Inserted(t: EventTable, k: Key, sequence: nat, events: seq<Event>, n: nat): EventTable
    requires n <= |events|
  {
    if n == 0 then t else Inserted(t, k, sequence, events, n - 1)[(k, sequence + n) := events[n - 1]]
  }

  lemma {:induction false} InsertedRows(t: EventTable, k: Key, sequence: nat, events: seq<Event>, n: nat)
    requires n <= |events|
    ensures var u := Inserted(t, k, sequence, events, n);
      forall j, i :: ((j, i) in u <==> (j, i) in t || (j == k && sequence < i <= sequence + n))
    ensures var u := Inserted(t, k, sequence, events, n);
      forall j, i :: (j, i) in u ==>
        u[(j, i)] == if j == k && sequence < i <= sequence + n then events[i - sequence - 1] else t[(j, i)]
  {
    if n > 0 {
      InsertedRows(t, k, sequence, events, n - 1);
    }
  }

  // Selecting after the inserts returns the old events followed by the new ones.
  lemma {:induction false} SelectAfterInsert(t: EventTable, k: Key, sequence: nat, events: seq<Event>, n: nat)
    requires n <= |events|
    ensures var u := Inserted(t, k, sequence, events, |events|);
      EventsUpTo(u, k, sequence + n) == EventsUpTo(t, k, sequence) + events[..n]
  {
    var u := Inserted(t, k, sequence, events, |events|);
    InsertedRows(t, k, sequence, events, |events|);
    if n == 0 {
      EventsUpToSame(u, t, k, sequence);
    } else {
      SelectAfterInsert(t, k, sequence, events, n - 1);
      assert (k, sequence + n) in u && u[(k, sequence + n)] == events[n - 1];
      assert events[..n] == events[..n - 1] + [events[n - 1]];
    }
  }

  function RenameMissing<T>(r: Outcome<T>): Outcome<T> {
    if r == Err(NotFound) then Err(LeaseLost) else r
  }

  // What PostgreSQL makes of a create: it prepares first, and its columns are signed 64-bit.
  function PgCreate(s: Store, snapshot: Snapshot, d: Draw, o: Options): (Store, Outcome<()>) {
    match PrepareCreate(snapshot, d.now0, o)
    case Err(e) => (s, Err(e))
    case Ok(p) =>
      if !Fits(p.revision) || !Fits(p.eventSequence) then (s, Err(TOO_WIDE))
      else if Key(p.tenant, p.run) in s then (s, Err(AlreadyExists))
      else (s[Key(p.tenant, p.run) := Run(p, [], None)], Ok(()))
  }

  function PgAppend(
    s: Store, lease: Lease, expected: u64, events: seq<Event>, snapshot: Snapshot, d: Draw, o: Options)
    : (Store, Outcome<Snapshot>)
  {
    var (s', r) := Append(s, lease, expected, events, snapshot, d, o);
    if r.Ok? && (!Fits(r.value.eventSequence) || !Fits(r.value.revision)) then (s, Err(TOO_WIDE)) else (s', r)
  }

  // The PostgreSQL store as a step: its own create and append, one clock reading in a renewal, and
  // LeaseLost where the abstract store says that the run of a renewal or release is missing.
  function PgStep(s: Store, op: Op, d: Draw, o: Options): (Store, Outcome<Reply>) {
    match op
    case OpCreate(snapshot) =>
      var (s', r) := PgCreate(s, snapshot, d, o); (s', Wrap(r, _ => Done))
    case OpAppend(lease, expected, events, snapshot) =>
      var (s', r) := PgAppend(s, lease, expected, events, snapshot, d, o); (s', Wrap(r, u => Appended(u)))
    case OpRenew(lease, ttl) =>
      var (s', r) := Renew(s, lease, ttl, d.(now2 := d.now1)); (s', Wrap(RenameMissing(r), l => Granted(l)))
    case OpRelease(lease) =>
      var (s', r) := Release(s, lease); (s', Wrap(RenameMissing(r), _ => Done))
    case _ => Step(s, op, d, o)
  }

  class PostgresStore {
    var rows: map<Key, Row>
    var events: EventTable
    const options: Options

    ghost function RunOf(k: Key): Run
      reads this
      requires k in rows && rows[k].eventSequence >= 0
    {
      Run(rows[k].snapshot, EventsUpTo(events, k, rows[k].eventSequence), RowLease(k, rows[k]))
    }

    ghost predicate Agree()
      reads this
    {
      EventRowsAgree(rows, events) && forall k :: k in rows ==> ColumnsAgree(k, rows[k])
    }

    ghost function Abs(): Store
      reads this
      requires Agree()
    {
      map k | k in rows :: RunOf(k)
    }

    ghost predicate Valid()
      reads this
    {
      Agree() && WellFormed(Abs())
    }

    constructor (options: Options)
      ensures Valid() && Abs() == map[] && this.options == options
    {
      rows, events := map[], map[];
      this.options := options;
    }

    ghost predicate RowReadable(k: Key)
      reads this
      requires k in rows
    {
      var (row, s) := (rows[k], rows[k].snapshot);
      && CheckVersion(s.schemaVersion, false).Ok? && ValidateKey(s, k).Ok?
      && Fits(s.revision) && Fits(s.eventSequence)
      && s.revision == row.revision && s.eventSequence == row.eventSequence
    }

    lemma Readable(k: Key)
      requires Valid() && k in rows
      ensures RowReadable(k) && Abs()[k] == RunOf(k) && WellFormedRun(k, RunOf(k)) && ColumnsAgree(k, rows[k])
    {
      assert Abs()[k] == RunOf(k);
    }

    // Lock the row, decode its snapshot and compare that with the row's key and columns.
    method ReadRow(k: Key) returns (r: Outcome<Snapshot>)
      ensures r.Ok? <==> k in rows && RowReadable(k)
      ensures r.Ok? ==> r.value == rows[k].snapshot
      ensures k !in rows ==> r == Err(NotFound)
    {
      if k !in rows {
        return Err(NotFound);
      }
      var row := rows[k];
      var ok := CheckVersion(row.snapshot.schemaVersion, false);
      if ok.Err? {
        return Err(ok.error);
      }
      ok := ValidateKey(row.snapshot, k);
      if ok.Err? {
        return Err(ok.error);
      }
      if !Fits(row.snapshot.revision) || !Fits(row.snapshot.eventSequence) {
        return Err(TOO_WIDE);
      }
      if row.snapshot.revision != row.revision || row.snapshot.eventSequence != row.eventSequence {
        return Err(Invalid("snapshot metadata does not match row"));
      }
      r := Ok(row.snapshot);
    }

    predicate EventRowReadable(k: Key, n: int)
      reads this
      requires (k, n) in events
    {
      var e := events[(k, n)];
      e.tenant == k.tenant && e.run == k.run && e.sequence == n
    }

    // Read the event rows up to `last` in order, checking each against its key columns.
    method SelectEvents(k: Key, last: nat) returns (r: Outcome<seq<Event>>)
      ensures r.Ok? <==> forall n :: 1 <= n <= last && (k, n) in events ==> EventRowReadable(k, n)
      ensures r.Ok? ==> r.value == EventsUpTo(events, k, last)
    {
      var found: seq<Event> := [];
      for n := 0 to last
        invariant found == EventsUpTo(events, k, n)
        invariant forall m :: 1 <= m <= n && (k, m) in events ==> EventRowReadable(k, m)
      {
        if (k, n + 1) in events {
          if !EventRowReadable(k, n + 1) {
            return Err(Invalid("event key does not match row"));
          }
          found := found + [events[(k, n + 1)]];
        }
      }
      r := Ok(found);
    }

    lemma {:induction false} EventsSelected(k: Key, n: nat, last: nat)
      requires 1 <= n <= last && (k, n) in events
      ensures events[(k, n)] in EventsUpTo(events, k, last)
    {
      if n < last {
        EventsSelected(k, n, last - 1);
      }
    }

    lemma EventRowsReadable(k: Key)
      requires Valid() && k in rows
      ensures forall n :: 1 <= n <= rows[k].eventSequence && (k, n) in events ==> EventRowReadable(k, n)
    {
      Readable(k);
      forall n | 1 <= n <= rows[k].eventSequence && (k, n) in events ensures EventRowReadable(k, n) {
        EventsSelected(k, n, rows[k].eventSequence);
      }
    }

    // check_lease: the token column must match; a missing or passed deadline fails a timed check.
    method CheckLease(k: Key, lease: Lease, now: Option<Time>) returns (held: bool)
      requires Valid() && k in rows
      ensures held == Holds(Abs()[k].lease, lease, now)
    {
      var row := rows[k];
      assert Abs()[k] == RunOf(k) && ColumnsAgree(k, row);
      held := row.leaseToken == Some(lease.token)
        && (now.None? || (row.leaseUntil.Some? && row.leaseUntil.value > now.value));
    }

    // UPDATE of the lease columns only.
    method SetLease(k: Key, lease: Option<Lease>)
      requires Valid() && k in rows && (lease.Some? ==> lease.value.key == k)
      modifies this`rows
      ensures Valid() && Abs() == old(Abs())[k := old(Abs())[k].(lease := lease)]
    {
      var row := rows[k];
      row := if lease.None? then row.(leaseOwner := None, leaseToken := None, leaseUntil := None)
        else row.(leaseOwner := Some(lease.value.owner), leaseToken := Some(lease.value.token),
                  leaseUntil := Some(lease.value.expiresAt));
      assert ColumnsAgree(k, rows[k]);
      rows := rows[k := row];
      assert Agree();
      assert RowLease(k, row) == lease;
      assert Abs() == old(Abs())[k := old(Abs())[k].(lease := lease)];
    }

    method Create(snapshot: Snapshot, d: Draw) returns (r: Outcome<()>)
      requires Valid()
      modifies this
      ensures Valid()
      ensures (Abs(), r) == PgCreate(old(Abs()), snapshot, d, options)
    {
      var prepared := PrepareCreate(snapshot, d.now0, options);
      if prepared.Err? {
        return Err(prepared.error);
      }
      var s := prepared.value;
      var k := Key(s.tenant, s.run);
      if !Fits(s.revision) || !Fits(s.eventSequence) {
        return Err(TOO_WIDE);
      }
      if k in rows {
        return Err(AlreadyExists);
      }
      rows := rows[k := Row(s.revision, s.eventSequence, s, s.retainUntil, None, None, None, s.createdAt, s.updatedAt)];
      assert Agree();
      NoEvents(k, s.eventSequence);
      assert Abs() == old(Abs())[k := Run(s, [], None)];
      r := Ok(());
    }

    lemma {:induction false} NoEvents(k: Key, n: nat)
      requires forall i :: 1 <= i <= n ==> (k, i) !in events
      ensures EventsUpTo(events, k, n) == []
    {
      if n > 0 {
        NoEvents(k, n - 1);
      }
    }

    method Load(k: Key) returns (r: Outcome<(Snapshot, seq<Event>)>)
      requires Valid()
      ensures r == RunStoreSpec.Load(Abs(), k)
    {
      var snapshot := ReadRow(k);
      if k in rows {
        Readable(k);
        EventRowsReadable(k);
      }
      if snapshot.Err? {
        return Err(snapshot.error);
      }
      var found := SelectEvents(k, snapshot.value.eventSequence);
      r := match found
        case Ok(es) => Ok((snapshot.value, es))
        case Err(e) => Err(e);
    }

    // The INSERT statements of one transaction; a number that does not fit aborts it.
    method InsertEvents(k: Key, sequence: nat, stamped: seq<Event>) returns (r: Outcome<EventTable>)
      requires forall i :: 0 <= i < |stamped| ==> stamped[i].sequence == sequence + i + 1
      ensures r == if stamped != [] && !Fits(sequence + |stamped|) then Err(TOO_WIDE)
        else Ok(Inserted(events, k, sequence, stamped, |stamped|))
    {
      var pending := events;
      for i := 0 to |stamped|
        invariant pending == Inserted(events, k, sequence, stamped, i)
        invariant i > 0 ==> Fits(sequence + i)
      {
        if !Fits(stamped[i].sequence) {
          return Err(TOO_WIDE);
        }
        pending := pending[(k, stamped[i].sequence) := stamped[i]];
      }
      r := Ok(pending);
    }

    method Append(lease: Lease, expected: u64, added: seq<Event>, snapshot: Snapshot, d: Draw)
      returns (r: Outcome<Snapshot>)
      requires Valid()
      modifies this
      ensures Valid()
      ensures (Abs(), r) == PgAppend(old(Abs()), lease, expected, added, snapshot, d, options)
    {
      hide WellFormed, WellFormedRun, PrepareAppend, Inserted, ColumnsAgree, EventRowsAgree;
      var k := lease.key;
      ghost var start := Abs();
      AppendKeepsWellFormed(start, lease, expected, added, snapshot, d, options);
      if k in rows {
        Readable(k);
      }
      var read := ReadRow(k);
      if read.Err? {
        return Err(read.error);
      }
      var held := CheckLease(k, lease, Some(d.now1));
      if !held {
        return Err(LeaseLost);
      }
      if read.value.revision != expected {
        return Err(Conflict);
      }
      var sequence := read.value.eventSequence;
      var prepared := RunPrepareAppend(k, expected, sequence, added, snapshot, d, options);
      if prepared.Err? {
        return Err(prepared.error);
      }
      PrepareAppendShape(k, expected, sequence, added, snapshot, d, options);
      var (updated, stamped) := prepared.value;
      var pending := InsertEvents(k, sequence, stamped);
      if pending.Err? {
        return Err(pending.error);
      }
      if !Fits(updated.revision) || !Fits(updated.eventSequence) {
        return Err(TOO_WIDE);
      }
      Commit(k, updated, stamped, pending.value);
      r := Ok(updated);
    }

    // The UPDATE of the run row and the commit that publishes it with the inserted event rows.
    method Commit(k: Key, updated: Snapshot, stamped: seq<Event>, pending: EventTable)
      requires Agree() && k in rows && rows[k].eventSequence >= 0
      requires updated.eventSequence == rows[k].eventSequence + |stamped|
      requires Fits(updated.revision) && Fits(updated.eventSequence)
      requires forall i :: 0 <= i < |stamped| ==> stamped[i].sequence == rows[k].eventSequence + i + 1
      requires pending == Inserted(events, k, rows[k].eventSequence, stamped, |stamped|)
      modifies this
      ensures Agree()
      ensures Abs() == old(Abs())[k := Run(updated, old(Abs())[k].events + stamped, old(Abs())[k].lease)]
    {
      ghost var sequence := rows[k].eventSequence;
      ghost var start := Abs();
      Selected(k, stamped);
      var row := rows[k].(revision := updated.revision, eventSequence := updated.eventSequence,
                          snapshot := updated, retainUntil := updated.retainUntil, updatedAt := updated.updatedAt);
      assert start[k] == RunOf(k) && ColumnsAgree(k, rows[k]);
      rows := rows[k := row];
      events := pending;
      hide Inserted, EventsUpTo;
      assert Agree();
      forall j | j in rows && j != k ensures RunOf(j) == start[j] {}
      assert RunOf(k) == Run(updated, start[k].events + stamped, start[k].lease);
    }

    // What the selects of all runs return once the inserts of one append are in.
    lemma Selected(k: Key, stamped: seq<Event>)
      requires Agree() && k in rows && rows[k].eventSequence >= 0
      requires forall i :: 0 <= i < |stamped| ==> stamped[i].sequence == rows[k].eventSequence + i + 1
      ensures var t := Inserted(events, k, rows[k].eventSequence, stamped, |stamped|);
        var grown := rows[k].eventSequence + |stamped|;
        && EventsUpTo(t, k, grown) == RunOf(k).events + stamped
        && (forall j :: j in rows && j != k ==>
          rows[j].eventSequence >= 0 && EventsUpTo(t, j, rows[j].eventSequence) == RunOf(j).events)
        && forall j, n :: (j, n) in t ==>
          && j in rows && 1 <= n <= (if j == k then grown else rows[j].eventSequence) && t[(j, n)].sequence == n
    {
      hide Inserted, EventsUpTo, RowLease;
      var sequence := rows[k].eventSequence;
      var t := Inserted(events, k, sequence, stamped, |stamped|);
      InsertedRows(events, k, sequence, stamped, |stamped|);
      SelectAfterInsert(events, k, sequence, stamped, |stamped|);
      assert stamped[..|stamped|] == stamped;
      forall j | j in rows && j != k
        ensures rows[j].eventSequence >= 0 && EventsUpTo(t, j, rows[j].eventSequence) == RunOf(j).events
      {
        assert ColumnsAgree(j, rows[j]);
        EventsUpToSame(t, events, j, rows[j].eventSequence);
      }
    }

    method AcquireLease(k: Key, owner: string, ttl: nat, d: Draw) returns (r: Outcome<Lease>)
      requires Valid()
      modifies this`rows
      ensures Valid()
      ensures (Abs(), r) == Acquire(old(Abs()), k, owner, ttl, d)
    {
      if owner == "" {
        return Err(Invalid("lease owner is required"));
      }
      var until := Expiry(d.now0, ttl);
      if until.Err? {
        return Err(until.error);
      }
      if k in rows {
        Readable(k);
      }
      var snapshot := ReadRow(k);
      if snapshot.Err? {
        return Err(snapshot.error);
      }
      if rows[k].leaseUntil.Some? && rows[k].leaseUntil.value > d.now1 {
        return Err(LeaseHeld);
      }
      until := Expiry(d.now1, ttl);
      if until.Err? {
        return Err(until.error);
      }
      var lease := Lease(k, owner, d.token, until.value);
      SetLease(k, Some(lease));
      r := Ok(lease);
    }

    // One database clock reading serves both the check and the new deadline.
    method RenewLease(lease: Lease, ttl: nat, d: Draw) returns (r: Outcome<Lease>)
      requires Valid()
      modifies this`rows
      ensures Valid()
      ensures var (s, q) := Renew(old(Abs()), lease, ttl, d.(now2 := d.now1));
        Abs() == s && r == RenameMissing(q)
    {
      var k := lease.key;
      var until := Expiry(d.now0, ttl);
      if until.Err? {
        return Err(until.error);
      }
      if k in rows {
        Readable(k);
      }
      var snapshot := ReadRow(k);
      if snapshot.Err? {
        return RenameMissing(Err(snapshot.error));
      }
      var held := CheckLease(k, lease, Some(d.now1));
      if !held {
        return Err(LeaseLost);
      }
      until := Expiry(d.now1, ttl);
      if until.Err? {
        return Err(until.error);
      }
      // Key and token are the caller's, which the check tied to the row; the owner is the row's.
      var renewed := lease.(owner := rows[k].leaseOwner.value, expiresAt := until.value);
      SetLease(k, Some(renewed));
      r := Ok(renewed);
    }

    method ReleaseLease(lease: Lease) returns (r: Outcome<()>)
      requires Valid()
      modifies this`rows
      ensures Valid()
      ensures var (s, q) := Release(old(Abs()), lease);
        Abs() == s && r == RenameMissing(q)
    {
      var k := lease.key;
      if k in rows {
        Readable(k);
      }
      var snapshot := ReadRow(k);
      if snapshot.Err? {
        return RenameMissing(Err(snapshot.error));
      }
      var held := CheckLease(k, lease, None);
      if !held {
        return Err(LeaseLost);
      }
      SetLease(k, None);
      r := Ok(());
    }

    // DELETE of the rows of some runs together with their event rows; one statement, one step.
    method DeleteRows(gone: set<Key>)
      requires Valid()
      modifies this
      ensures Valid() && Abs() == old(Abs()) - gone
    {
      rows := rows - gone;
      events := map p | p in events && p.0 !in gone :: events[p];
      assert Agree();
      forall k | k in rows ensures RunOf(k) == old(RunOf(k)) {
        EventsUpToSame(events, old(events), k, rows[k].eventSequence);
      }
      assert Abs() == old(Abs()) - gone;
    }

    method DeleteRun(k: Key) returns (r: Outcome<()>)
      requires Valid()
      modifies this
      ensures Valid()
      ensures (Abs(), r) == RunStoreSpec.DeleteRun(old(Abs()), k)
    {
      if k !in rows {
        return Err(NotFound);
      }
      DeleteRows({k});
      r := Ok(());
    }

    method DeleteTenant(tenant: string)
      requires Valid()
      modifies this
      ensures Valid()
      ensures Abs() == RunStoreSpec.DeleteTenant(old(Abs()), tenant)
    {
      DeleteRows(set k | k in rows && k.tenant == tenant);
      assert Abs() == RunStoreSpec.DeleteTenant(old(Abs()), tenant);
    }

    // Retention reads the row's own column, not the snapshot.
    method ApplyRetention(now: Time) returns (deleted: nat)
      requires Valid()
      modifies this
      ensures Valid()
      ensures (Abs(), deleted) == Retain(old(Abs()), Tenants(old(Abs())), now)
    {
      var gone := set k | k in rows && rows[k].retainUntil.Some? && rows[k].retainUntil.value <= now;
      ghost var start := Abs();
      forall k ensures k in gone <==> k in Doomed(start, Tenants(start), now) {
        if k in rows {
          Readable(k);
          assert k.tenant in Tenants(start);
        }
      }
      assert gone == Doomed(start, Tenants(start), now);
      DeleteRows(gone);
      deleted := |gone|;
    }

    // Any operation of the RunStore trait.
    method Perform(op: Op, d: Draw) returns (r: Outcome<Reply>)
      requires Valid() && !op.OpRetainTenant?
      modifies this
      ensures Valid()
      ensures (Abs(), r) == PgStep(old(Abs()), op, d, options)
    {
      hide WellFormed, Agree, PrepareAppend, PrepareCreate, Retain;
      match op {
        case OpCreate(snapshot) =>
          var q := Create(snapshot, d);
          r := Wrap(q, _ => Done);
        case OpLoad(k) =>
          var q := Load(k);
          r := Wrap(q, (p: (Snapshot, seq<Event>)) => Loaded(p.0, p.1));
        case OpAppend(lease, expected, added, snapshot) =>
          var q := Append(lease, expected, added, snapshot, d);
          r := Wrap(q, u => Appended(u));
        case OpAcquire(k, owner, ttl) =>
          var q := AcquireLease(k, owner, ttl, d);
          r := Wrap(q, l => Granted(l));
        case OpRenew(lease, ttl) =>
          var q := RenewLease(lease, ttl, d);
          r := Wrap(q, l => Granted(l));
        case OpRelease(lease) =>
          var q := ReleaseLease(lease);
          r := Wrap(q, _ => Done);
        case OpDeleteRun(k) =>
          var q := DeleteRun(k);
          r := Wrap(q, _ => Done);
        case OpDeleteTenant(tenant) =>
          DeleteTenant(tenant);
          r := Ok(Done);
        case OpRetain(now) =>
          var n := ApplyRetention(now);
          r := Ok(Deleted(n));
      }
    }
  }
}
