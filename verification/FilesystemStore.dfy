/**
 The filesystem store: one whole record per file, read, validated, changed and written back under
 the tenant lock (filesystem.rs). A file is the record it decodes to; a rename replaces it whole.
 */
module FilesystemStores {
  import opened Wrappers
  import opened RunRecords
  import opened RunStoreSpec

  datatype Document = Document(schemaVersion: int, snapshot: Snapshot, events: seq<Event>)
  datatype Record = Record(document: Document, lease: Option<Lease>)

  const UNSAFE_ID: Error := Invalid("unsafe filesystem ID")

  predicate SafeId(id: string) {
    id != "" && |id| <= 255 &&
    forall i :: 0 <= i < |id| ==>
      'a' <= id[i] <= 'z' || 'A' <= id[i] <= 'Z' || '0' <= id[i] <= '9' || id[i] == '_' || id[i] == '-'
  }

  predicate SafeKey(k: Key) {
    SafeId(k.tenant) && SafeId(k.run)
  }

  // Event i belongs to the run and its number lies above its predecessor's, within the snapshot's.
  predicate EventFits(d: Document, k: Key, i: nat)
    requires i < |d.events|
  {
    var e := d.events[i];
    && e.tenant == k.tenant && e.run == k.run
    && (if i == 0 then 0 else d.events[i - 1].sequence) < e.sequence <= d.snapshot.eventSequence
  }

  // What read() insists on before it hands a record out.
  ghost predicate ReadValid(k: Key, r: Record) {
    var s := r.document.snapshot;
    && r.document.schemaVersion == SCHEMA_VERSION
    && CheckVersion(s.schemaVersion, true).Ok?
    && ValidateKey(s, k).Ok?
    && (forall i :: 0 <= i < |r.document.events| ==> EventFits(r.document, k, i))
    && (r.lease.Some? ==> r.lease.value.key == k)
  }

  function AsRun(r: Record): Run {
    Run(r.document.snapshot, r.document.events, r.lease)
  }

  // Every record of a well-formed run passes the validation of the next read.
  lemma WellFormedIsReadable(k: Key, r: Record)
    requires WellFormedRun(k, AsRun(r)) && r.document.schemaVersion == SCHEMA_VERSION
    ensures ReadValid(k, r)
  {
    forall i | 0 <= i < |r.document.events| ensures EventFits(r.document, k, i) {
      assert AsRun(r).events[i] == r.document.events[i];
      assert i > 0 ==> AsRun(r).events[i - 1] == r.document.events[i - 1];
    }
  }

  // The run an operation names, if it names one.
  function KeyOf(op: Op): Option<Key> {
    match op
    case OpCreate(snapshot) => Some(Key(snapshot.tenant, snapshot.run))
    case OpLoad(k) => Some(k)
    case OpAppend(lease, _, _, _) => Some(lease.key)
    case OpAcquire(k, _, _) => Some(k)
    case OpRenew(lease, _) => Some(lease.key)
    case OpRelease(lease) => Some(lease.key)
    case OpDeleteRun(k) => Some(k)
    case _ => None
  }

  predicate SafeOp(op: Op) {
    match op
    case OpDeleteTenant(tenant) => SafeId(tenant)
    case _ => KeyOf(op).Some? ==> SafeKey(KeyOf(op).value)
  }

  // Checks the store makes before it looks at an ID.
  predicate RefusedEarly(op: Op, d: Draw) {
    match op
    case OpCreate(snapshot) => ValidateSnapshot(snapshot).Err?
    case OpAcquire(_, owner, ttl) => owner == "" || Expiry(d.now0, ttl).Err?
    case OpRenew(_, ttl) => Expiry(d.now0, ttl).Err?
    case _ => false
  }

  // The filesystem store as a step: the abstract one, except that an unsafe ID is refused.
  function FsStep(s: Store, op: Op, d: Draw, o: Options): (Store, Outcome<Reply>) {
    if SafeOp(op) || RefusedEarly(op, d) then Step(s, op, d, o) else (s, Err(UNSAFE_ID))
  }

  class FilesystemStore {
    var files: map<Key, Record>
    const options: Options

    ghost function Abs(): Store
      reads this
    {
      map k | k in files :: AsRun(files[k])
    }

    ghost predicate Valid()
      reads this
    {
      && WellFormed(Abs())
      && forall k :: k in files ==> SafeKey(k) && files[k].document.schemaVersion == SCHEMA_VERSION
    }

    constructor (options: Options)
      ensures Valid() && Abs() == map[] && this.options == options
    {
      files := map[];
      this.options := options;
    }

    // Read and validate one record; nothing is trusted about what the file holds.
    method Read(k: Key) returns (r: Outcome<Record>)
      ensures r.Ok? <==> SafeKey(k) && k in files && ReadValid(k, files[k])
      ensures r.Ok? ==>
        var snapshot := files[k].document.snapshot.(schemaVersion := SCHEMA_VERSION);
        r.value == files[k].(document := files[k].document.(snapshot := snapshot))
      ensures SafeKey(k) && k !in files ==> r == Err(NotFound)
      ensures !SafeKey(k) ==> r == Err(UNSAFE_ID)
    {
      if !SafeKey(k) {
        return Err(UNSAFE_ID);
      }
      if k !in files {
        return Err(NotFound);
      }
      var record := files[k];
      var document := record.document;
      if document.schemaVersion != SCHEMA_VERSION {
        return Err(UnsupportedSchema(document.schemaVersion));
      }
      var ok := CheckVersion(document.snapshot.schemaVersion, true);
      if ok.Err? {
        return Err(ok.error);
      }
      ok := ValidateKey(document.snapshot, k);
      if ok.Err? {
        return Err(ok.error);
      }
      var sequence := 0;
      for i := 0 to |document.events|
        invariant sequence == if i == 0 then 0 else document.events[i - 1].sequence
        invariant forall j :: 0 <= j < i ==> EventFits(document, k, j)
      {
        var event := document.events[i];
        if event.tenant != k.tenant || event.run != k.run || event.sequence <= sequence
          || event.sequence > document.snapshot.eventSequence
        {
          assert !EventFits(document, k, i);
          return Err(Invalid("event metadata does not match record"));
        }
        sequence := event.sequence;
      }
      if record.lease.Some? && record.lease.value.key != k {
        return Err(Invalid("lease key does not match record"));
      }
      r := Ok(record.(document := document.(snapshot := document.snapshot.(schemaVersion := SCHEMA_VERSION))));
    }

    // Replace one record whole; the rename makes the new file visible at once.
    method Write(k: Key, document: Document, lease: Option<Lease>)
      requires Valid() && SafeKey(k) && document.schemaVersion == SCHEMA_VERSION
      requires WellFormedRun(k, Run(document.snapshot, document.events, lease))
      modifies this
      ensures Valid()
      ensures Abs() == old(Abs())[k := Run(document.snapshot, document.events, lease)]
    {
      files := files[k := Record(document, lease)];
      assert Abs() == old(Abs())[k := Run(document.snapshot, document.events, lease)];
    }

    lemma Readable(k: Key)
      requires Valid() && k in files
      ensures ReadValid(k, files[k]) && files[k].document.snapshot.schemaVersion == SCHEMA_VERSION
      ensures AsRun(files[k]) == Abs()[k] && WellFormedRun(k, Abs()[k])
    {
      assert Abs()[k] == AsRun(files[k]);
      WellFormedIsReadable(k, files[k]);
    }

    method Create(snapshot: Snapshot, d: Draw) returns (r: Outcome<()>)
      requires Valid()
      modifies this
      ensures Valid()
      ensures if SafeKey(Key(snapshot.tenant, snapshot.run)) || ValidateSnapshot(snapshot).Err?
        then (Abs(), r) == RunStoreSpec.Create(old(Abs()), snapshot, d, options)
        else (Abs(), r) == (old(Abs()), Err(UNSAFE_ID))
    {
      var k := Key(snapshot.tenant, snapshot.run);
      var ok := ValidateSnapshot(snapshot);
      if ok.Err? {
        return Err(ok.error);
      }
      if !SafeKey(k) {
        return Err(UNSAFE_ID);
      }
      if k in files {
        return Err(AlreadyExists);
      }
      var prepared := PrepareCreate(snapshot, d.now0, options);
      if prepared.Err? {
        return Err(prepared.error);
      }
      Write(k, Document(SCHEMA_VERSION, prepared.value, []), None);
      r := Ok(());
    }

    method Load(k: Key) returns (r: Outcome<(Snapshot, seq<Event>)>)
      requires Valid()
      ensures SafeKey(k) ==> r == RunStoreSpec.Load(Abs(), k)
      ensures !SafeKey(k) ==> r == Err(UNSAFE_ID)
    {
      if k in files {
        Readable(k);
      }
      var record := Read(k);
      if record.Err? {
        return Err(record.error);
      }
      r := Ok((record.value.document.snapshot, record.value.document.events));
    }

    method Append(lease: Lease, expected: u64, events: seq<Event>, snapshot: Snapshot, d: Draw)
      returns (r: Outcome<Snapshot>)
      requires Valid()
      modifies this
      ensures Valid()
      ensures if SafeKey(lease.key)
        then (Abs(), r) == RunStoreSpec.Append(old(Abs()), lease, expected, events, snapshot, d, options)
        else (Abs(), r) == (old(Abs()), Err(UNSAFE_ID))
    {
      var k := lease.key;
      AppendKeepsWellFormed(Abs(), lease, expected, events, snapshot, d, options);
      if k in files {
        Readable(k);
      }
      var read := Read(k);
      if read.Err? {
        return Err(read.error);
      }
      var document, stored := read.value.document, read.value.lease;
      if !Holds(stored, lease, Some(d.now1)) {
        return Err(LeaseLost);
      }
      if document.snapshot.revision != expected {
        return Err(Conflict);
      }
      var prepared := RunPrepareAppend(k, expected, document.snapshot.eventSequence, events, snapshot, d, options);
      if prepared.Err? {
        return Err(prepared.error);
      }
      document := document.(snapshot := prepared.value.0, events := document.events + prepared.value.1);
      Write(k, document, stored);
      r := Ok(prepared.value.0);
    }

    method AcquireLease(k: Key, owner: string, ttl: nat, d: Draw) returns (r: Outcome<Lease>)
      requires Valid()
      modifies this
      ensures Valid()
      ensures if SafeKey(k) || owner == "" || Expiry(d.now0, ttl).Err?
        then (Abs(), r) == Acquire(old(Abs()), k, owner, ttl, d)
        else (Abs(), r) == (old(Abs()), Err(UNSAFE_ID))
    {
      if owner == "" {
        return Err(Invalid("lease owner is required"));
      }
      var until := Expiry(d.now0, ttl);
      if until.Err? {
        return Err(until.error);
      }
      if k in files {
        Readable(k);
      }
      var read := Read(k);
      if read.Err? {
        return Err(read.error);
      }
      var stored := read.value.lease;
      if stored.Some? && stored.value.expiresAt > d.now1 {
        return Err(LeaseHeld);
      }
      until := Expiry(d.now1, ttl);
      if until.Err? {
        return Err(until.error);
      }
      var lease := Lease(k, owner, d.token, until.value);
      Write(k, read.value.document, Some(lease));
      r := Ok(lease);
    }

    method RenewLease(lease: Lease, ttl: nat, d: Draw) returns (r: Outcome<Lease>)
      requires Valid()
      modifies this
      ensures Valid()
      ensures if SafeKey(lease.key) || Expiry(d.now0, ttl).Err?
        then (Abs(), r) == Renew(old(Abs()), lease, ttl, d)
        else (Abs(), r) == (old(Abs()), Err(UNSAFE_ID))
    {
      var k := lease.key;
      var until := Expiry(d.now0, ttl);
      if until.Err? {
        return Err(until.error);
      }
      if k in files {
        Readable(k);
      }
      var read := Read(k);
      if read.Err? {
        return Err(read.error);
      }
      if !Holds(read.value.lease, lease, Some(d.now1)) {
        return Err(LeaseLost);
      }
      until := Expiry(d.now2, ttl);
      if until.Err? {
        return Err(until.error);
      }
      var renewed := read.value.lease.value.(expiresAt := until.value);
      Write(k, read.value.document, Some(renewed));
      r := Ok(renewed);
    }

    method ReleaseLease(lease: Lease) returns (r: Outcome<()>)
      requires Valid()
      modifies this
      ensures Valid()
      ensures if SafeKey(lease.key)
        then (Abs(), r) == Release(old(Abs()), lease)
        else (Abs(), r) == (old(Abs()), Err(UNSAFE_ID))
    {
      var k := lease.key;
      if k in files {
        Readable(k);
      }
      var read := Read(k);
      if read.Err? {
        return Err(read.error);
      }
      if !Holds(read.value.lease, lease, None) {
        return Err(LeaseLost);
      }
      Write(k, read.value.document, None);
      r := Ok(());
    }

    method RemoveFile(k: Key)
      requires Valid() && k in files
      modifies this
      ensures Valid() && files == old(files) - {k} && Abs() == old(Abs()) - {k}
    {
      files := files - {k};
      assert Abs() == old(Abs()) - {k};
    }

    method DeleteRun(k: Key) returns (r: Outcome<()>)
      requires Valid()
      modifies this
      ensures Valid()
      ensures if SafeKey(k)
        then (Abs(), r) == RunStoreSpec.DeleteRun(old(Abs()), k)
        else (Abs(), r) == (old(Abs()), Err(UNSAFE_ID))
    {
      if !SafeKey(k) {
        return Err(UNSAFE_ID);
      }
      if k !in files {
        return Err(NotFound);
      }
      RemoveFile(k);
      r := Ok(());
    }

    method DeleteTenant(tenant: string) returns (r: Outcome<()>)
      requires Valid()
      modifies this
      ensures Valid()
      ensures if SafeId(tenant)
        then r == Ok(()) && Abs() == RunStoreSpec.DeleteTenant(old(Abs()), tenant)
        else r == Err(UNSAFE_ID) && Abs() == old(Abs())
    {
      if !SafeId(tenant) {
        return Err(UNSAFE_ID);
      }
      files := map k | k in files && k.tenant != tenant :: files[k];
      assert Abs() == RunStoreSpec.DeleteTenant(old(Abs()), tenant);
      r := Ok(());
    }

    // One tenant's directory, swept under that tenant's lock. Other callers may come in between tenants,
    // so each is a step of its own.
    method RetainTenant(tenant: string, now: Time) returns (deleted: nat)
      requires Valid()
      modifies this
      ensures Valid()
      ensures (Abs(), deleted) == Retain(old(Abs()), {tenant}, now)
    {
      hide WellFormed, WellFormedRun, ReadValid, SafeKey;
      ghost var start, gone: set<Key> := Abs(), {};
      var entries := set k | k in files && k.tenant == tenant;
      deleted := 0;
      assert Abs() == start - gone;
      while entries != {}
        invariant Valid() && deleted == |gone|
        invariant Abs() == start - gone
        invariant forall k :: k in gone ==> k in start && k.tenant == tenant && Expired(start[k], now)
        invariant forall k :: k in start && k.tenant == tenant && k !in gone && k !in entries ==>
          !Expired(start[k], now)
        invariant forall k :: k in entries ==> k in files && k.tenant == tenant
        decreases entries
      {
        var k :| k in entries;
        Readable(k);
        var record := Read(k);
        entries := entries - {k};
        assert k !in gone && start[k] == AsRun(files[k]);
        if Expired(AsRun(record.value), now) {
          RemoveFile(k);
          RemoveTwice(start, gone, {k});
          gone := gone + {k};
          deleted := deleted + 1;
        }
      }
      assert gone == Doomed(start, {tenant}, now);
    }

    // The whole sweep when no other caller comes in between.
    method ApplyRetention(now: Time) returns (deleted: nat)
      requires Valid()
      modifies this
      ensures Valid()
      ensures (Abs(), deleted) == Retain(old(Abs()), Tenants(old(Abs())), now)
    {
      hide WellFormed, WellFormedRun, ReadValid, SafeKey, Retain;
      var directories := set k | k in files :: k.tenant;
      ghost var done: set<string> := {};
      ghost var start := Abs();
      deleted := 0;
      RetainNone(start, now);
      assert directories == Tenants(start);
      while directories != {}
        invariant Valid() && done !! directories
        invariant done + directories == Tenants(start)
        invariant Abs() == Retain(start, done, now).0 && deleted == Retain(start, done, now).1
        decreases directories
      {
        var tenant :| tenant in directories;
        RetainOneMore(start, done, tenant, now);
        var n := RetainTenant(tenant, now);
        deleted := deleted + n;
        done := done + {tenant};
        directories := directories - {tenant};
      }
      assert done == Tenants(start);
    }

    // Any operation of the RunStore trait, or one tenant's part of a sweep.
    method Perform(op: Op, d: Draw) returns (r: Outcome<Reply>)
      requires Valid()
      modifies this
      ensures Valid()
      ensures (Abs(), r) == FsStep(old(Abs()), op, d, options)
    {
      hide WellFormed, SafeKey, PrepareAppend, PrepareCreate, Retain;
      match op {
        case OpCreate(snapshot) =>
          var q := Create(snapshot, d);
          r := Wrap(q, _ => Done);
        case OpLoad(k) =>
          var q := Load(k);
          r := Wrap(q, (p: (Snapshot, seq<Event>)) => Loaded(p.0, p.1));
        case OpAppend(lease, expected, events, snapshot) =>
          var q := Append(lease, expected, events, snapshot, d);
          r := Wrap(q, u => Appended(u));
        case OpAcquire(k, owner, ttl) =>
          var q := AcquireLease(k, owner, ttl, d);
          r := Wrap(q, l => Granted(l));
        case OpRenew(lease, ttl) =>
          var q := RenewLease(lease, ttl, d);
          r := Wrap(q, l => Granted(l));
        case OpRelease(lease) =>
          var q := ReleaseLease(lease);
          r := Wrap(q, _ => Done);
        case OpDeleteRun(k) =>
          var q := DeleteRun(k);
          r := Wrap(q, _ => Done);
        case OpDeleteTenant(tenant) =>
          var q := DeleteTenant(tenant);
          r := Wrap(q, _ => Done);
        case OpRetain(now) =>
          var n := ApplyRetention(now);
          r := Ok(Deleted(n));
        case OpRetainTenant(tenant, now) =>
          var n := RetainTenant(tenant, now);
          r := Ok(Deleted(n));
      }
    }
  }
}
