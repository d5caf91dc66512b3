/**
 The durable run record and the arithmetic both stores share (store.rs).
 JSON values are kept as text; clocks, fresh tokens and fresh event IDs are drawn by the caller.
 */
module RunRecords {
  import opened Wrappers

  const SCHEMA_VERSION: int := 2
  const U64_MAX: int := 0xFFFF_FFFF_FFFF_FFFF
  const I64_MAX: int := 0x7FFF_FFFF_FFFF_FFFF
  // Times are microseconds; the zero time marks an unset timestamp.
  const ZERO_TIME: int := 0
  const MAX_TIME: int := 8_210_266_876_799_999_999
  const MAX_DURATION: int := 1000 * I64_MAX

  type u64 = n: int | 0 <= n <= 0xFFFF_FFFF_FFFF_FFFF
  type Time = int
  type Token = nat
  type Value = string

  datatype Error =
    | NotFound | AlreadyExists | Conflict | LeaseHeld | LeaseLost
    | UnsupportedSchema(version: int) | Invalid(reason: string) | Protection(reason: string)

  type Outcome<T> = Result<T, Error>

  datatype Key = Key(tenant: string, run: string)
  datatype Lease = Lease(key: Key, owner: string, token: Token, expiresAt: Time)
  datatype Classification = Unspecified | Public | Internal | Sensitive | Secret

  datatype Event = Event(
    id: string, tenant: string, run: string, sequence: u64, at: Time,
    kind: string, classification: Classification, payload: Option<Value>)

  // A redactable value of a snapshot; an unspecified class falls back to the snapshot's.
  datatype Slot = Slot(own: Classification, value: Option<Value>)

  datatype Snapshot = Snapshot(
    schemaVersion: int, tenant: string, run: string, revision: u64, eventSequence: u64,
    status: string, classification: Classification, slots: seq<Slot>,
    createdAt: Time, updatedAt: Time, retainUntil: Option<Time>)

  datatype Options = Options(redactor: Option<(Classification, Value) -> Outcome<Value>>)

  // What one call reads from its surroundings: up to three clock readings, a fresh lease
  // token and a supply of fresh event IDs.
  datatype Draw = Draw(now0: Time, now1: Time, now2: Time, token: Token, newId: nat -> string)

  function CheckVersion(version: int, allowZero: bool): Outcome<()> {
    if version != SCHEMA_VERSION && !(allowZero && version == 0) then Err(UnsupportedSchema(version)) else Ok(())
  }

  function ValidateSnapshot(s: Snapshot): Outcome<()> {
    if s.tenant == "" || s.run == "" then Err(Invalid("snapshot requires tenant and run IDs"))
    else CheckVersion(s.schemaVersion, true)
  }

  function ValidateKey(s: Snapshot, k: Key): Outcome<()> {
    if s.tenant != k.tenant || s.run != k.run then Err(Invalid("snapshot key does not match store key")) else Ok(())
  }

  function Expiry(now: Time, ttl: nat): Outcome<Time> {
    if ttl == 0 then Err(Invalid("positive lease TTL is required"))
    else if ttl > MAX_DURATION || now + ttl > MAX_TIME then Err(Invalid("lease TTL overflow"))
    else Ok(now + ttl)
  }

  function RedactValue(v: Option<Value>, c: Classification, o: Options): Outcome<Option<Value>> {
    if o.redactor.None? || v.None? then Ok(v)
    else
      var r :- o.redactor.value(c, v.value);
      Ok(Some(r))
  }

  function RedactSlots(slots: seq<Slot>, n: nat, c: Classification, o: Options): (r: Outcome<seq<Slot>>)
    requires n <= |slots|
    ensures r.Ok? ==> |r.value| == n
  {
    if n == 0 then Ok([])
    else
      var done :- RedactSlots(slots, n - 1, c, o);
      var slot := slots[n - 1];
      var v :- RedactValue(slot.value, if slot.own.Unspecified? then c else slot.own, o);
      Ok(done + [slot.(value := v)])
  }

  function RedactSnapshot(s: Snapshot, o: Options): Outcome<Snapshot> {
    var slots :- RedactSlots(s.slots, |s.slots|, s.classification, o);
    Ok(s.(slots := slots))
  }

  function PrepareCreate(s: Snapshot, now: Time, o: Options): Outcome<Snapshot> {
    var _ :- ValidateSnapshot(s);
    var created := if s.createdAt == ZERO_TIME then now else s.createdAt;
    var updated := if s.updatedAt == ZERO_TIME then created else s.updatedAt;
    RedactSnapshot(s.(schemaVersion := SCHEMA_VERSION, createdAt := created, updatedAt := updated), o)
  }

  // One event as the append loop leaves it.
  function Stamp(e: Event, k: Key, sequence: u64, at: Time, id: string, o: Options): Outcome<Event> {
    if (e.tenant != "" && e.tenant != k.tenant) || (e.run != "" && e.run != k.run) then
      Err(Invalid("event key does not match append key"))
    else
      var payload :- RedactValue(e.payload, e.classification, o);
      Ok(Event(if e.id == "" then id else e.id, k.tenant, k.run, sequence,
               if e.at == ZERO_TIME then at else e.at, e.kind, e.classification, payload))
  }

  function StampAll(events: seq<Event>, n: nat, k: Key, sequence: u64, at: Time, d: Draw, o: Options)
    : Outcome<seq<Event>>
    requires n <= |events| && sequence + |events| <= U64_MAX
  {
    if n == 0 then Ok([])
    else
      var done :- StampAll(events, n - 1, k, sequence, at, d, o);
      var e :- Stamp(events[n - 1], k, sequence + n, at, d.newId(n - 1), o);
      Ok(done + [e])
  }

  function PrepareAppend(
    k: Key, revision: u64, sequence: u64, events: seq<Event>, s: Snapshot, d: Draw, o: Options)
    : Outcome<(Snapshot, seq<Event>)>
  {
    var _ :- ValidateSnapshot(s);
    var _ :- ValidateKey(s, k);
    if revision == U64_MAX then Err(Invalid("revision overflow"))
    else if s.revision != revision + 1 then Err(Invalid("snapshot revision must follow the expected one"))
    else if sequence + |events| > U64_MAX then Err(Invalid("event sequence overflow"))
    else
      var stamped :- StampAll(events, |events|, k, sequence, s.updatedAt, d, o);
      var updated := if s.updatedAt == ZERO_TIME then d.now2 else s.updatedAt;
      var snapshot :- RedactSnapshot(
        s.(schemaVersion := SCHEMA_VERSION, eventSequence := sequence + |events|, updatedAt := updated), o);
      Ok((snapshot, stamped))
  }

  lemma {:induction false} StampAllError(
    events: seq<Event>, i: nat, n: nat, k: Key, sequence: u64, at: Time, d: Draw, o: Options)
    requires i <= n <= |events| && sequence + |events| <= U64_MAX
    requires StampAll(events, i, k, sequence, at, d, o).Err?
    ensures StampAll(events, n, k, sequence, at, d, o) == StampAll(events, i, k, sequence, at, d, o)
  {
    if i < n {
      StampAllError(events, i, n - 1, k, sequence, at, d, o);
    }
  }

  lemma {:induction false} RedactSlotsError(slots: seq<Slot>, i: nat, n: nat, c: Classification, o: Options)
    requires i <= n <= |slots| && RedactSlots(slots, i, c, o).Err?
    ensures RedactSlots(slots, n, c, o) == RedactSlots(slots, i, c, o)
  {
    if i < n {
      RedactSlotsError(slots, i, n - 1, c, o);
    }
  }

  lemma {:induction false} StampAllShape(
    events: seq<Event>, n: nat, k: Key, sequence: u64, at: Time, d: Draw, o: Options)
    requires n <= |events| && sequence + |events| <= U64_MAX
    ensures var r := StampAll(events, n, k, sequence, at, d, o);
      r.Ok? ==>
        && |r.value| == n
        && forall i :: 0 <= i < n ==>
          r.value[i].sequence == sequence + i + 1 && r.value[i].tenant == k.tenant && r.value[i].run == k.run
  {
    if n > 0 {
      StampAllShape(events, n - 1, k, sequence, at, d, o);
    }
  }

  // A prepared append advances the revision by one and numbers its events on from the old end;
  // whatever the redactor returns, keys, revision and sequences are the caller's.
  lemma PrepareAppendShape(
    k: Key, revision: u64, sequence: u64, events: seq<Event>, s: Snapshot, d: Draw, o: Options)
    requires PrepareAppend(k, revision, sequence, events, s, d, o).Ok?
    ensures var (u, es) := PrepareAppend(k, revision, sequence, events, s, d, o).value;
      && u.revision == revision + 1 && u.eventSequence == sequence + |events| && |es| == |events|
      && u.tenant == k.tenant && u.run == k.run && u.schemaVersion == SCHEMA_VERSION
      && u.retainUntil == s.retainUntil
      && forall i :: 0 <= i < |es| ==>
        es[i].sequence == sequence + i + 1 && es[i].tenant == k.tenant && es[i].run == k.run
  {
    StampAllShape(events, |events|, k, sequence, s.updatedAt, d, o);
  }

  // The loops of redact_snapshot and prepare_append, proved to compute the functions above.
  method RunRedactSnapshot(s: Snapshot, o: Options) returns (r: Outcome<Snapshot>)
    ensures r == RedactSnapshot(s, o)
  {
    var slots: seq<Slot> := [];
    for i := 0 to |s.slots|
      invariant RedactSlots(s.slots, i, s.classification, o) == Ok(slots)
    {
      var slot := s.slots[i];
      var v := RedactValue(slot.value, if slot.own.Unspecified? then s.classification else slot.own, o);
      if v.Err? {
        RedactSlotsError(s.slots, i + 1, |s.slots|, s.classification, o);
        return Err(v.error);
      }
      slots := slots + [slot.(value := v.value)];
    }
    r := Ok(s.(slots := slots));
  }

  method RunPrepareAppend(
    k: Key, revision: u64, sequence: u64, events: seq<Event>, s: Snapshot, d: Draw, o: Options)
    returns (r: Outcome<(Snapshot, seq<Event>)>)
    ensures r == PrepareAppend(k, revision, sequence, events, s, d, o)
  {
    var ok := ValidateSnapshot(s);
    if ok.Err? {
      return Err(ok.error);
    }
    ok := ValidateKey(s, k);
    if ok.Err? {
      return Err(ok.error);
    }
    if revision == U64_MAX {
      return Err(Invalid("revision overflow"));
    }
    if s.revision != revision + 1 {
      return Err(Invalid("snapshot revision must follow the expected one"));
    }
    if sequence + |events| > U64_MAX {
      return Err(Invalid("event sequence overflow"));
    }
    var stamped: seq<Event> := [];
    for i := 0 to |events|
      invariant StampAll(events, i, k, sequence, s.updatedAt, d, o) == Ok(stamped)
    {
      var e := Stamp(events[i], k, sequence + i + 1, s.updatedAt, d.newId(i), o);
      if e.Err? {
        StampAllError(events, i + 1, |events|, k, sequence, s.updatedAt, d, o);
        return Err(e.error);
      }
      stamped := stamped + [e.value];
    }
    var snapshot := s.(schemaVersion := SCHEMA_VERSION, eventSequence := sequence + |events|);
    if snapshot.updatedAt == ZERO_TIME {
      snapshot := snapshot.(updatedAt := d.now2);
    }
    var redacted := RunRedactSnapshot(snapshot, o);
    if redacted.Err? {
      return Err(redacted.error);
    }
    r := Ok((redacted.value, stamped));
  }
}
