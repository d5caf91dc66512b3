/**
 What the calls of the run stores mean to a caller (store.rs, filesystem.rs, postgres.rs): when each
 succeeds, what is stored then and what later calls see of it, for either store and in plain numbers.
 */
module RunStoreLaws {
  import opened Wrappers
  import opened RunRecords
  import opened RunStoreSpec
  import opened FilesystemStores
  import opened StoreEquivalence

  // ---- values and the redactor

  // A value is stored as it is without a redactor, else as the redactor answers for its class.
  ghost predicate RedactedTo(v: Option<Value>, c: Classification, o: Options, w: Option<Value>) {
    match (o.redactor, v)
    case (Some(redactor), Some(value)) => w.Some? && redactor(c, value) == Ok(w.value)
    case _ => w == v
  }

  ghost predicate Redactable(v: Option<Value>, c: Classification, o: Options) {
    exists w :: RedactedTo(v, c, o, w)
  }

  // A slot without a class of its own has the snapshot's.
  function ClassOf(slot: Slot, s: Snapshot): Classification {
    if slot.own == Unspecified then s.classification else slot.own
  }

  ghost predicate SlotsRedacted(s: Snapshot, t: Snapshot, o: Options) {
    && |t.slots| == |s.slots|
    && forall i :: 0 <= i < |s.slots| ==>
      t.slots[i].own == s.slots[i].own
      && RedactedTo(s.slots[i].value, ClassOf(s.slots[i], s), o, t.slots[i].value)
  }

  ghost predicate SlotsRedactable(s: Snapshot, o: Options) {
    forall i :: 0 <= i < |s.slots| ==> Redactable(s.slots[i].value, ClassOf(s.slots[i], s), o)
  }

  lemma ValueLaw(v: Option<Value>, c: Classification, o: Options)
    ensures RedactValue(v, c, o).Ok? <==> Redactable(v, c, o)
    ensures RedactValue(v, c, o).Ok? ==> RedactedTo(v, c, o, RedactValue(v, c, o).value)
  {
    if RedactValue(v, c, o).Ok? {
      assert RedactedTo(v, c, o, RedactValue(v, c, o).value);
    } else {
      forall w ensures !RedactedTo(v, c, o, w) {}
    }
  }

  lemma {:induction false} SlotsLaw(s: Snapshot, n: nat, o: Options)
    requires n <= |s.slots|
    ensures var r := RedactSlots(s.slots, n, s.classification, o);
      && (r.Ok? <==> forall i :: 0 <= i < n ==> Redactable(s.slots[i].value, ClassOf(s.slots[i], s), o))
      && (r.Ok? ==> forall i :: 0 <= i < n ==>
        r.value[i].own == s.slots[i].own
        && RedactedTo(s.slots[i].value, ClassOf(s.slots[i], s), o, r.value[i].value))
  {
    hide RedactValue, RedactedTo, Redactable;
    if n > 0 {
      SlotsLaw(s, n - 1, o);
      ValueLaw(s.slots[n - 1].value, ClassOf(s.slots[n - 1], s), o);
    }
  }

  // ---- create

  ghost predicate CreatedAs(given: Snapshot, t: Snapshot, now: Time, o: Options) {
    && t.tenant == given.tenant && t.run == given.run && t.status == given.status
    && t.revision == given.revision && t.eventSequence == given.eventSequence && t.schemaVersion == 2
    && t.classification == given.classification && t.retainUntil == given.retainUntil
    && t.createdAt == (if given.createdAt == 0 then now else given.createdAt)
    && t.updatedAt == (if given.updatedAt != 0 then given.updatedAt else t.createdAt)
    && SlotsRedacted(given, t, o)
  }

  lemma PrepareCreateLaw(given: Snapshot, now: Time, o: Options)
    ensures var r := PrepareCreate(given, now, o);
      && (r.Ok? <==>
        given.tenant != "" && given.run != "" && given.schemaVersion in {0, 2} && SlotsRedactable(given, o))
      && (r.Ok? ==> CreatedAs(given, r.value, now, o))
      && (ValidateSnapshot(given).Ok? <==> given.tenant != "" && given.run != "" && given.schemaVersion in {0, 2})
  {
    hide RedactSlots, RedactedTo, Redactable;
    SlotsLaw(given, |given.slots|, o);
    var created := if given.createdAt == ZERO_TIME then now else given.createdAt;
    var updated := if given.updatedAt == ZERO_TIME then created else given.updatedAt;
    var filled := given.(schemaVersion := SCHEMA_VERSION, createdAt := created, updatedAt := updated);
    assert RedactSlots(filled.slots, |filled.slots|, filled.classification, o)
      == RedactSlots(given.slots, |given.slots|, given.classification, o);
  }

  // A number PostgreSQL can store.
  predicate Signed(n: int) {
    n < 0x8000_0000_0000_0000
  }

  // Both stores create exactly the valid snapshots of runs that do not exist, as the caller gave them.
  lemma CreateLaw(b: Backend, s: Store, given: Snapshot, d: Draw, o: Options)
    ensures var ((t, r), k) := (StepOf(b)(s, OpCreate(given), d, o), Key(given.tenant, given.run));
      && (r.Ok? <==>
        && given.tenant != "" && given.run != "" && given.schemaVersion in {0, 2} && k !in s
        && SlotsRedactable(given, o)
        && (if b.OnDisk? then SafeKey(k) else Signed(given.revision) && Signed(given.eventSequence)))
      && (r.Err? ==> t == s)
      && (r.Ok? ==>
        && r.value == Done && k in t && t == s[k := t[k]]
        && t[k].events == [] && t[k].lease == None && CreatedAs(given, t[k].snapshot, d.now0, o))
  {
    hide PrepareCreate, ValidateSnapshot, SlotsRedacted, SlotsRedactable;
    PrepareCreateLaw(given, d.now0, o);
  }

  // ---- append

  // A caller's event as it is stored: everything the caller set stays.
  ghost predicate StoredAs(given: Event, e: Event, i: nat, k: Key, sequence: int, at: Time, d: Draw, o: Options) {
    && e.kind == given.kind && e.classification == given.classification
    && e.id == (if given.id != "" then given.id else d.newId(i))
    && e.at == (if given.at != 0 then given.at else at)
    && e.tenant == k.tenant && e.run == k.run && e.sequence == sequence + i + 1
    && RedactedTo(given.payload, given.classification, o, e.payload)
  }

  // A caller's event fits the run if it names no other.
  ghost predicate Storable(e: Event, k: Key, o: Options) {
    e.tenant in {"", k.tenant} && e.run in {"", k.run} && Redactable(e.payload, e.classification, o)
  }

  lemma StampLaw(e: Event, i: nat, k: Key, sequence: u64, n: u64, at: Time, d: Draw, o: Options)
    requires n == sequence + i + 1
    ensures Stamp(e, k, n, at, d.newId(i), o).Ok? <==> Storable(e, k, o)
    ensures Stamp(e, k, n, at, d.newId(i), o).Ok? ==>
      StoredAs(e, Stamp(e, k, n, at, d.newId(i), o).value, i, k, sequence, at, d, o)
  {
    hide RedactValue, RedactedTo, Redactable;
    ValueLaw(e.payload, e.classification, o);
  }

  lemma {:induction false} StampAllLaw(
    events: seq<Event>, n: nat, k: Key, sequence: u64, at: Time, d: Draw, o: Options)
    requires n <= |events| && sequence + |events| <= U64_MAX
    ensures var r := StampAll(events, n, k, sequence, at, d, o);
      && (r.Ok? <==> forall i :: 0 <= i < n ==> Storable(events[i], k, o))
      && (r.Ok? ==> |r.value| == n && forall i :: 0 <= i < n ==>
        StoredAs(events[i], r.value[i], i, k, sequence, at, d, o))
  {
    hide Stamp, Storable, StoredAs;
    if n > 0 {
      StampAllLaw(events, n - 1, k, sequence, at, d, o);
      StampLaw(events[n - 1], n - 1, k, sequence, sequence + n, at, d, o);
    }
  }

  ghost predicate UpdatedAs(given: Snapshot, t: Snapshot, sequence: int, now: Time, o: Options) {
    && t.tenant == given.tenant && t.run == given.run && t.status == given.status
    && t.revision == given.revision && t.eventSequence == sequence && t.schemaVersion == 2
    && t.classification == given.classification && t.retainUntil == given.retainUntil
    && t.createdAt == given.createdAt && t.updatedAt == (if given.updatedAt != 0 then given.updatedAt else now)
    && SlotsRedacted(given, t, o)
  }

  // The lease presented is the one stored, at a time before its end.
  predicate Held(s: Store, lease: Lease, now: Time) {
    lease.key in s && s[lease.key].lease.Some? && s[lease.key].lease.value.token == lease.token
    && now < s[lease.key].lease.value.expiresAt
  }

  ghost predicate Appendable(
    k: Key, expected: u64, sequence: u64, events: seq<Event>, given: Snapshot, o: Options)
  {
    && given.tenant == k.tenant != "" && given.run == k.run != "" && given.schemaVersion in {0, 2}
    && given.revision == expected + 1 && sequence + |events| <= 0xFFFF_FFFF_FFFF_FFFF
    && (forall i :: 0 <= i < |events| ==> Storable(events[i], k, o)) && SlotsRedactable(given, o)
  }

  lemma PrepareLaw(
    k: Key, expected: u64, sequence: u64, events: seq<Event>, given: Snapshot, d: Draw, o: Options)
    ensures var r := PrepareAppend(k, expected, sequence, events, given, d, o);
      && (r.Ok? <==> Appendable(k, expected, sequence, events, given, o))
      && (r.Ok? ==>
        && UpdatedAs(given, r.value.0, sequence + |events|, d.now2, o)
        && |r.value.1| == |events|
        && forall i :: 0 <= i < |events| ==>
          StoredAs(events[i], r.value.1[i], i, k, sequence, given.updatedAt, d, o))
  {
    hide RedactSlots, RedactedTo, Redactable, StampAll, Storable, StoredAs;
    if sequence + |events| <= U64_MAX {
      StampAllLaw(events, |events|, k, sequence, given.updatedAt, d, o);
      SlotsLaw(given, |given.slots|, o);
      var updated := if given.updatedAt == ZERO_TIME then d.now2 else given.updatedAt;
      var filled := given.(
        schemaVersion := SCHEMA_VERSION, eventSequence := sequence + |events|, updatedAt := updated);
      assert RedactSlots(filled.slots, |filled.slots|, filled.classification, o)
        == RedactSlots(given.slots, |given.slots|, given.classification, o);
    }
  }

  // What one append leaves in the store and answers.
  ghost predicate AppendedAs(
    s: Store, t: Store, answer: Reply, lease: Lease, events: seq<Event>, given: Snapshot, d: Draw, o: Options)
  {
    var k := lease.key;
    && k in s && k in t && t == s[k := t[k]] && t[k].lease == s[k].lease
    && answer == Appended(t[k].snapshot)
    && UpdatedAs(given, t[k].snapshot, s[k].snapshot.eventSequence + |events|, d.now2, o)
    && |t[k].events| == |s[k].events| + |events| && t[k].events[..|s[k].events|] == s[k].events
    && forall i :: 0 <= i < |events| ==>
      StoredAs(events[i], t[k].events[|s[k].events| + i], i, k, s[k].snapshot.eventSequence, given.updatedAt, d, o)
  }

  // An append succeeds exactly for the holder of an unexpired lease at the stored revision, with a
  // snapshot and events of the run. Then it stores what the caller gave, and a load returns it.
  lemma AppendLaw(
    b: Backend, s: Store, lease: Lease, expected: u64, events: seq<Event>, given: Snapshot, d: Draw, o: Options,
    later: Draw)
    ensures var ((t, r), k) := (StepOf(b)(s, OpAppend(lease, expected, events, given), d, o), lease.key);
      && (r.Ok? <==>
        && Held(s, lease, d.now1) && s[k].snapshot.revision == expected
        && Appendable(k, expected, s[k].snapshot.eventSequence, events, given, o)
        && (if b.OnDisk? then SafeKey(k)
          else Signed(given.revision) && Signed(s[k].snapshot.eventSequence + |events|)))
      && (r.Err? ==> t == s)
      && (r.Ok? ==>
        && AppendedAs(s, t, r.value, lease, events, given, d, o)
        && StepOf(b)(t, OpLoad(k), later, o) == (t, Ok(Loaded(t[k].snapshot, t[k].events))))
  {
    hide PrepareAppend, Appendable, StoredAs, SlotsRedacted;
    var k := lease.key;
    if k in s {
      PrepareLaw(k, expected, s[k].snapshot.eventSequence, events, given, d, o);
      assert forall x: seq<Event> :: |x| == |events| ==> (s[k].events + x)[..|s[k].events|] == s[k].events;
    }
  }

  // Which of the first three reasons an append is refused for.
  lemma AppendRefusals(
    b: Backend, s: Store, lease: Lease, expected: u64, events: seq<Event>, given: Snapshot, d: Draw, o: Options)
    requires SafeKey(lease.key)
    ensures var r := StepOf(b)(s, OpAppend(lease, expected, events, given), d, o).1;
      if lease.key !in s then r == Err(NotFound)
      else if !Held(s, lease, d.now1) then r == Err(LeaseLost)
      else s[lease.key].snapshot.revision != expected ==> r == Err(Conflict)
  {
    hide PrepareAppend;
  }

  // ---- leases

  predicate Ttl(now: Time, ttl: nat) {
    0 < ttl <= 9_223_372_036_854_775_807_000 && now + ttl <= 8_210_266_876_799_999_999
  }

  lemma ExpiryLaw(now: Time, ttl: nat)
    ensures Expiry(now, ttl) == if Ttl(now, ttl) then Ok(now + ttl) else
      Err(Invalid(if ttl == 0 then "positive lease TTL is required" else "lease TTL overflow"))
  {}

  // A lease is granted exactly to a named owner where none is in force; it then is the only one.
  lemma AcquireLaw(b: Backend, s: Store, k: Key, owner: string, ttl: nat, d: Draw, o: Options)
    ensures var (t, r) := StepOf(b)(s, OpAcquire(k, owner, ttl), d, o);
      && (r.Ok? <==>
        && owner != "" && Ttl(d.now0, ttl) && Ttl(d.now1, ttl) && k in s && (b.OnDisk? ==> SafeKey(k))
        && (s[k].lease.Some? ==> s[k].lease.value.expiresAt <= d.now1))
      && (r.Err? ==> t == s)
      && (r.Ok? ==>
        var lease := Lease(k, owner, d.token, d.now1 + ttl);
        r.value == Granted(lease) && t == s[k := s[k].(lease := Some(lease))])
      && (owner != "" && Ttl(d.now0, ttl) && SafeKey(k) ==>
        && (k !in s ==> r == Err(NotFound))
        && (k in s && s[k].lease.Some? && s[k].lease.value.expiresAt > d.now1 ==> r == Err(LeaseHeld)))
  {
    ExpiryLaw(d.now0, ttl);
    ExpiryLaw(d.now1, ttl);
  }

  // A lease is renewed exactly while it is stored and in force: from then on it lasts `ttl` more.
  lemma RenewLaw(b: Backend, s: Store, lease: Lease, ttl: nat, d: Draw, o: Options)
    ensures var (t, r) := StepOf(b)(s, OpRenew(lease, ttl), d, o);
      var now := if b.OnDisk? then d.now2 else d.now1;
      && (r.Ok? <==>
        Ttl(d.now0, ttl) && Ttl(now, ttl) && Held(s, lease, d.now1) && (b.OnDisk? ==> SafeKey(lease.key)))
      && (r.Err? ==> t == s)
      && (r.Ok? ==>
        var renewed := s[lease.key].lease.value.(expiresAt := now + ttl);
        r.value == Granted(renewed) && t == s[lease.key := s[lease.key].(lease := Some(renewed))])
      && (Ttl(d.now0, ttl) && SafeKey(lease.key) && lease.key in s && !Held(s, lease, d.now1) ==> r == Err(LeaseLost))
  {
    ExpiryLaw(d.now0, ttl);
    ExpiryLaw(d.now1, ttl);
    ExpiryLaw(d.now2, ttl);
  }

  // A stored lease is released by its token, in force or not.
  lemma ReleaseLaw(b: Backend, s: Store, lease: Lease, d: Draw, o: Options)
    ensures var ((t, r), k) := (StepOf(b)(s, OpRelease(lease), d, o), lease.key);
      && (r.Ok? <==>
        && k in s && s[k].lease.Some? && s[k].lease.value.token == lease.token && (b.OnDisk? ==> SafeKey(k)))
      && (r.Err? ==> t == s)
      && (r.Ok? ==> r.value == Done && t == s[k := s[k].(lease := None)])
      && (SafeKey(k) && k in s && r.Err? ==> r == Err(LeaseLost))
  {}

  // ---- loads and deletions

  // The IDs the store on disk takes, by the codes of their characters.
  lemma SafeIdLaw(id: string)
    ensures SafeId(id) <==>
      && 1 <= |id| <= 255
      && forall c <- id :: 48 <= c as int <= 57 || 65 <= c as int <= 90 || 97 <= c as int <= 122 || c as int in {45, 95}
  {
    assert forall i :: 0 <= i < |id| ==> id[i] in id;
  }

  lemma LoadLaw(b: Backend, s: Store, k: Key, d: Draw, o: Options)
    requires SafeKey(k)
    ensures StepOf(b)(s, OpLoad(k), d, o) ==
      (s, if k in s then Ok(Loaded(s[k].snapshot, s[k].events)) else Err(NotFound))
  {}

  lemma DeleteRunLaw(b: Backend, s: Store, k: Key, d: Draw, o: Options)
    requires SafeKey(k)
    ensures var (t, r) := StepOf(b)(s, OpDeleteRun(k), d, o);
      && r == (if k in s then Ok(Done) else Err(NotFound))
      && t.Keys == s.Keys - {k} && forall x :: x in t ==> t[x] == s[x]
  {}

  lemma DeleteTenantLaw(b: Backend, s: Store, tenant: string, d: Draw, o: Options)
    requires SafeId(tenant)
    ensures var (t, r) := StepOf(b)(s, OpDeleteTenant(tenant), d, o);
      && r == Ok(Done)
      && (forall x :: x in t <==> x in s && x.tenant != tenant) && (forall x :: x in t ==> t[x] == s[x])
  {}

  // A sweep removes exactly the runs whose time to be retained ends at `now` or before, and counts them.
  lemma RetainLaw(b: Backend, s: Store, now: Time, d: Draw, o: Options)
    ensures var (t, r) := StepOf(b)(s, OpRetain(now), d, o);
      && r == Ok(Deleted(|s| - |t|)) && (forall x :: x in t ==> t[x] == s[x])
      && forall x :: x in t <==>
        x in s && (s[x].snapshot.retainUntil == None || s[x].snapshot.retainUntil.value > now)
  {
    var gone := Doomed(s, Tenants(s), now);
    FewerRuns(s, gone);
    RetainStep(b, s, now, d, o);
    forall x | x in s ensures x in gone <==> Expired(s[x], now) { assert x.tenant in Tenants(s); }
  }

  lemma RetainStep(b: Backend, s: Store, now: Time, d: Draw, o: Options)
    ensures StepOf(b)(s, OpRetain(now), d, o) ==
      (s - Doomed(s, Tenants(s), now), Ok(Deleted(|Doomed(s, Tenants(s), now)|)))
  {}
}
