/**
 The session table of an MCP server (server.rs). Requests run concurrently; each takes the lock of the
 table several times, and everything in between may interleave with other requests.
 */
module ServerSessions {
  import opened Wrappers

  const MAX_SESSIONS := 1024
  const MAX_SESSIONS_PER_TENANT := 128
  const SESSION_TTL := 30 * 60

  datatype Binding = Binding(tenant: string, lastSeen: int, initialized: bool)
  datatype Table = Table(bindings: map<string, Binding>, closed: bool)

  datatype Outcome = Proceed | Accepted | NoContent | BadRequest | Forbidden | TooManyRequests | Unavailable

  // What a message asks of the table: its own session's flag, or work on an initialized session.
  datatype Message = InitializedNotification | Notification | Request

  // ---- the critical sections, as functions

  function Pruned(b: map<string, Binding>, now: int): map<string, Binding> {
    map id | id in b && now - b[id].lastSeen < SESSION_TTL :: b[id]
  }

  function OfTenant(b: map<string, Binding>, tenant: string): set<string> {
    set id | id in b && b[id].tenant == tenant
  }

  // A request that names a session: it must be live and the tenant's own; DELETE ends it.
  function Admit(t: Table, id: string, tenant: string, delete: bool, now: int): (Table, Outcome) {
    if t.closed then (t, Unavailable)
    else
      var b := Pruned(t.bindings, now);
      if id !in b || b[id].tenant != tenant then (t.(bindings := b), Forbidden)
      else if delete then (t.(bindings := b - {id}), NoContent)
      else (t.(bindings := b[id := b[id].(lastSeen := now)]), Proceed)
  }

  // A new session under a fresh ID, unless the server or the tenant has too many.
  function Create(t: Table, tenant: string, id: string, now: int): (Table, Outcome) {
    if t.closed then (t, Unavailable)
    else
      var b := Pruned(t.bindings, now);
      if |b| >= MAX_SESSIONS || |OfTenant(b, tenant)| >= MAX_SESSIONS_PER_TENANT then
        (t.(bindings := b), TooManyRequests)
      else (t.(bindings := b[id := Binding(tenant, now, false)]), Proceed)
  }

  // The gate before a message is worked on. It neither prunes nor looks at the tenant.
  function Gate(t: Table, id: string, m: Message): (Table, Outcome) {
    if t.closed then (t, Unavailable)
    else if id !in t.bindings then (t, Forbidden)
    else if m.InitializedNotification? then
      (t.(bindings := t.bindings[id := t.bindings[id].(initialized := true)]), Accepted)
    else if !t.bindings[id].initialized then (t, BadRequest)
    else if m.Notification? then (t, Accepted)
    else (t, Proceed)
  }

  function Closed(t: Table): Table {
    Table(map[], true)
  }

  // ---- the table in place

  class Sessions {
    var bindings: map<string, Binding>
    var closed: bool

    ghost function View(): Table
      reads this
    {
      Table(bindings, closed)
    }

    constructor ()
      ensures View() == Table(map[], false)
    {
      bindings, closed := map[], false;
    }

    method Prune(now: int)
      modifies this`bindings
      ensures bindings == Pruned(old(bindings), now)
    {
      bindings := map id | id in bindings && now - bindings[id].lastSeen < SESSION_TTL :: bindings[id];
    }

    method RequestStep(id: string, tenant: string, delete: bool, now: int) returns (r: Outcome)
      modifies this
      ensures (View(), r) == Admit(old(View()), id, tenant, delete, now)
    {
      if closed {
        return Unavailable;
      }
      Prune(now);
      if id !in bindings || bindings[id].tenant != tenant {
        return Forbidden;
      }
      bindings := bindings[id := bindings[id].(lastSeen := now)];
      if delete {
        ghost var kept := Pruned(old(bindings), now);
        assert bindings - {id} == kept - {id};
        bindings := bindings - {id};
        return NoContent;
      }
      return Proceed;
    }

    method InitializeStep(tenant: string, id: string, now: int) returns (r: Outcome)
      modifies this
      ensures (View(), r) == Create(old(View()), tenant, id, now)
    {
      if closed {
        return Unavailable;
      }
      Prune(now);
      if |bindings| >= MAX_SESSIONS || |OfTenant(bindings, tenant)| >= MAX_SESSIONS_PER_TENANT {
        return TooManyRequests;
      }
      bindings := bindings[id := Binding(tenant, now, false)];
      return Proceed;
    }

    method DispatchStep(id: string, m: Message) returns (r: Outcome)
      modifies this
      ensures (View(), r) == Gate(old(View()), id, m)
    {
      if closed {
        return Unavailable;
      }
      if id !in bindings {
        return Forbidden;
      }
      if m.InitializedNotification? {
        bindings := bindings[id := bindings[id].(initialized := true)];
        return Accepted;
      }
      if !bindings[id].initialized {
        return BadRequest;
      }
      return if m.Notification? then Accepted else Proceed;
    }

    method Close()
      modifies this
      ensures View() == Closed(old(View()))
    {
      closed, bindings := true, map[];
    }

    method Count(now: int) returns (n: nat)
      modifies this`bindings
      ensures bindings == Pruned(old(bindings), now) && n == |bindings|
    {
      Prune(now);
      return |bindings|;
    }
  }

  // ---- interleavings of all requests

  // A request in flight: its authenticated tenant and the session it named, once admitted to it.
  datatype InFlight = InFlight(tenant: string, session: Option<string>)

  datatype Event =
    | Created(id: string, tenant: string)
    | Initialized(id: string, tenant: string)
    | Called(id: string, tenant: string)
    | Deleted(id: string)
    | Shut

  datatype World = World(table: Table, requests: map<nat, InFlight>, issued: set<string>, events: seq<Event>)

  // One lock step of some request, or of the host.
  datatype Step =
    | Anonymous(request: nat, tenant: string)
    | Enter(request: nat, tenant: string, id: string, delete: bool, now: int)
    | Open(request: nat, id: string, now: int)
    | Dispatch(request: nat, m: Message)
    | Shutdown
    | Survey(now: int)

  const START := World(Table(map[], false), map[], {}, [])

  // Session IDs are random, so a new one was never issued before.
  predicate Legal(w: World, s: Step) {
    s.Open? ==> s.id !in w.issued
  }

  function Next(w: World, s: Step): World {
    match s
    case Anonymous(r, tenant) =>
      if w.table.closed then w else w.(requests := w.requests[r := InFlight(tenant, None)])
    case Enter(r, tenant, id, delete, now) =>
      var (t, o) := Admit(w.table, id, tenant, delete, now);
      if o == Proceed then w.(table := t, requests := w.requests[r := InFlight(tenant, Some(id))])
      else if o == NoContent then w.(table := t, events := w.events + [Deleted(id)])
      else w.(table := t)
    case Open(r, id, now) =>
      // only a request that names no session may initialize one
      if r !in w.requests || w.requests[r].session.Some? then w
      else
        var (t, o) := Create(w.table, w.requests[r].tenant, id, now);
        if o == Proceed then World(t, w.requests, w.issued + {id}, w.events + [Created(id, w.requests[r].tenant)])
        else w.(table := t)
    case Dispatch(r, m) =>
      if r !in w.requests || w.requests[r].session.None? then w
      else
        var (tenant, id) := (w.requests[r].tenant, w.requests[r].session.value);
        var (t, o) := Gate(w.table, id, m);
        if o == Proceed then w.(table := t, events := w.events + [Called(id, tenant)])
        else if o == Accepted && m.InitializedNotification? then
          w.(table := t, events := w.events + [Initialized(id, tenant)])
        else w.(table := t)
    case Shutdown => w.(table := Closed(w.table), events := w.events + [Shut])
    case Survey(now) => w.(table := w.table.(bindings := Pruned(w.table.bindings, now)))
  }

  function Run(w: World, steps: seq<Step>): World {
    if steps == [] then w else Next(Run(w, steps[..|steps| - 1]), steps[|steps| - 1])
  }

  predicate LegalRun(w: World, steps: seq<Step>) {
    steps == [] || (LegalRun(w, steps[..|steps| - 1]) && Legal(Run(w, steps[..|steps| - 1]), steps[|steps| - 1]))
  }

  ghost predicate Bounded(b: map<string, Binding>) {
    |b| <= MAX_SESSIONS && forall tenant: string :: |OfTenant(b, tenant)| <= MAX_SESSIONS_PER_TENANT
  }

  predicate Was(events: seq<Event>, e: Event) {
    e in events
  }

  // The order of two events of a run.
  ghost predicate Before(events: seq<Event>, a: Event, b: Event) {
    exists i, j :: 0 <= i < j < |events| && events[i] == a && events[j] == b
  }

  // What holds of the table after every step of every interleaving.
  ghost predicate Sound(w: World) {
    && (w.table.closed ==> w.table.bindings == map[])
    && (w.table.closed <==> Was(w.events, Shut))
    && (forall id <- w.table.bindings ::
      id in w.issued && !Was(w.events, Deleted(id)) && BindingSound(w.events, id, w.table.bindings[id]))
    && (forall r <- w.requests :: w.requests[r].session.Some? ==>
      w.requests[r].session.value in w.issued
        && Was(w.events, Created(w.requests[r].session.value, w.requests[r].tenant)))
    && (forall e <- w.events :: EventSound(w, e))
  }

  lemma Issued(w: World, id: string, tenant: string)
    requires Sound(w)
    ensures Was(w.events, Created(id, tenant)) || Was(w.events, Deleted(id)) ==> id in w.issued
  {
    if Was(w.events, Created(id, tenant)) { assert EventSound(w, Created(id, tenant)); }
    if Was(w.events, Deleted(id)) { assert EventSound(w, Deleted(id)); }
  }

  ghost predicate BindingSound(events: seq<Event>, id: string, b: Binding) {
    && Was(events, Created(id, b.tenant))
    && (b.initialized ==> Before(events, Created(id, b.tenant), Initialized(id, b.tenant)))
  }

  // Every ID has one owner.
  ghost predicate EventSound(w: World, e: Event) {
    match e
    case Created(id, tenant) => id in w.issued && forall other :: Was(w.events, Created(id, other)) ==> other == tenant
    case Initialized(id, tenant) => Was(w.events, Created(id, tenant))
    case Deleted(id) => id in w.issued
    case _ => true
  }

  // The gate's promise for one call: at that point its session had been created for this tenant and
  // then initialized by it, had not been deleted, and the server had not been closed.
  ghost predicate CallSound(events: seq<Event>, k: nat)
    requires k < |events| && events[k].Called?
  {
    var (id, tenant) := (events[k].id, events[k].tenant);
    && Before(events[..k], Created(id, tenant), Initialized(id, tenant))
    && !Was(events[..k], Deleted(id)) && !Was(events[..k], Shut)
  }

  // ---- bounds

  lemma PrunedBounded(b: map<string, Binding>, now: int)
    requires Bounded(b)
    ensures Bounded(Pruned(b, now))
  {
    var p := Pruned(b, now);
    SubsetSize(p.Keys, b.Keys);
    forall tenant: string ensures |OfTenant(p, tenant)| <= MAX_SESSIONS_PER_TENANT {
      SubsetSize(OfTenant(p, tenant), OfTenant(b, tenant));
    }
  }

  lemma {:induction false} SubsetSize<T>(a: set<T>, b: set<T>)
    requires a <= b
    ensures |a| <= |b|
  {
    if a != {} {
      var x :| x in a;
      SubsetSize(a - {x}, b - {x});
    }
  }

  lemma FewerBounded(b: map<string, Binding>, id: string)
    requires Bounded(b)
    ensures Bounded(b - {id})
  {
    SubsetSize((b - {id}).Keys, b.Keys);
    forall tenant: string ensures |OfTenant(b - {id}, tenant)| <= MAX_SESSIONS_PER_TENANT {
      SubsetSize(OfTenant(b - {id}, tenant), OfTenant(b, tenant));
    }
  }

  lemma SameTenantBounded(b: map<string, Binding>, id: string, binding: Binding)
    requires Bounded(b) && id in b && b[id].tenant == binding.tenant
    ensures Bounded(b[id := binding])
  {
    var c := b[id := binding];
    assert c.Keys == b.Keys && |c| == |c.Keys|;
    forall tenant: string ensures |OfTenant(c, tenant)| <= MAX_SESSIONS_PER_TENANT {
      assert OfTenant(c, tenant) == OfTenant(b, tenant);
    }
  }

  lemma OneMoreBounded(b: map<string, Binding>, id: string, binding: Binding)
    requires Bounded(b) && |b| < MAX_SESSIONS && |OfTenant(b, binding.tenant)| < MAX_SESSIONS_PER_TENANT
    ensures Bounded(b[id := binding])
  {
    var c := b[id := binding];
    assert c.Keys == b.Keys + {id};
    forall tenant: string ensures |OfTenant(c, tenant)| <= MAX_SESSIONS_PER_TENANT {
      if tenant == binding.tenant {
        assert OfTenant(c, tenant) == OfTenant(b, tenant) + {id};
      } else {
        SubsetSize(OfTenant(c, tenant), OfTenant(b, tenant));
      }
    }
  }

  lemma AdmitBounded(t: Table, id: string, tenant: string, delete: bool, now: int)
    requires Bounded(t.bindings)
    ensures Bounded(Admit(t, id, tenant, delete, now).0.bindings)
  {
    hide Bounded, Pruned;
    PrunedBounded(t.bindings, now);
    var p := Pruned(t.bindings, now);
    FewerBounded(p, id);
    if id in p {
      SameTenantBounded(p, id, p[id].(lastSeen := now));
    }
  }

  lemma CreateBounded(t: Table, tenant: string, id: string, now: int)
    requires Bounded(t.bindings)
    ensures Bounded(Create(t, tenant, id, now).0.bindings)
  {
    hide Bounded, Pruned;
    PrunedBounded(t.bindings, now);
    var p := Pruned(t.bindings, now);
    if |p| < MAX_SESSIONS && |OfTenant(p, tenant)| < MAX_SESSIONS_PER_TENANT {
      var binding := Binding(tenant, now, false);
      assert binding.tenant == tenant;
      OneMoreBounded(p, id, binding);
    }
  }

  lemma GateBounded(t: Table, id: string, m: Message)
    requires Bounded(t.bindings)
    ensures Bounded(Gate(t, id, m).0.bindings)
  {
    hide Bounded;
    if id in t.bindings {
      SameTenantBounded(t.bindings, id, t.bindings[id].(initialized := true));
    }
  }

  lemma NextBounded(w: World, s: Step)
    requires Bounded(w.table.bindings)
    ensures Bounded(Next(w, s).table.bindings)
  {
    hide Bounded, Admit, Create, Gate, Pruned;
    match s
    case Enter(_, tenant, id, delete, now) => AdmitBounded(w.table, id, tenant, delete, now);
    case Open(r, id, now) => if r in w.requests { CreateBounded(w.table, w.requests[r].tenant, id, now); }
    case Dispatch(r, m) =>
      if r in w.requests && w.requests[r].session.Some? { GateBounded(w.table, w.requests[r].session.value, m); }
    case Survey(now) => PrunedBounded(w.table.bindings, now);
    case Anonymous(_, _) =>
    case Shutdown => NoneBounded();
  }

  lemma NoneBounded()
    ensures Bounded(map[])
  {
    forall tenant: string ensures OfTenant(map[], tenant) == {} {}
  }

  // In every interleaving there are never more sessions than the server or a tenant may have.
  lemma {:induction false} AlwaysBounded(steps: seq<Step>)
    ensures Bounded(Run(START, steps).table.bindings)
  {
    hide Bounded, Next;
    if steps == [] {
      NoneBounded();
    } else {
      AlwaysBounded(steps[..|steps| - 1]);
      NextBounded(Run(START, steps[..|steps| - 1]), steps[|steps| - 1]);
    }
  }

  // ---- ownership

  lemma BeforeMore(events: seq<Event>, e: Event, a: Event, b: Event)
    ensures Before(events, a, b) ==> Before(events + [e], a, b)
    ensures Was(events, a) ==> Before(events + [e], a, e)
    ensures Was(events + [e], a) <==> Was(events, a) || a == e
  {
    if Before(events, a, b) {
      var i, j :| 0 <= i < j < |events| && events[i] == a && events[j] == b;
      assert (events + [e])[i] == a && (events + [e])[j] == b;
    }
    if Was(events, a) {
      var i :| 0 <= i < |events| && events[i] == a;
      assert (events + [e])[i] == a && (events + [e])[|events|] == e;
    }
  }

  predicate SameButSeen(a: Binding, b: Binding) {
    a.(lastSeen := 0) == b.(lastSeen := 0)
  }

  // The table may only lose bindings, or have one of them refreshed.
  lemma ShrunkSound(w: World, b: map<string, Binding>)
    requires Sound(w)
    requires forall id <- b :: id in w.table.bindings && SameButSeen(b[id], w.table.bindings[id])
    ensures Sound(w.(table := w.table.(bindings := b)))
  {
    hide Was, Before;
    var v := w.(table := w.table.(bindings := b));
    if w.table.closed {
      assert b == map[] by { if id :| id in b { assert id in w.table.bindings; } }
    }
    forall e | e in v.events ensures EventSound(v, e) {
      assert EventSound(w, e);
    }
  }

  lemma AdmittedSound(w: World, r: nat, tenant: string, id: string)
    requires Sound(w) && id in w.table.bindings && w.table.bindings[id].tenant == tenant
    ensures Sound(w.(requests := w.requests[r := InFlight(tenant, Some(id))]))
  {
    hide Was, Before;
    var v := w.(requests := w.requests[r := InFlight(tenant, Some(id))]);
    forall e | e in v.events ensures EventSound(v, e) {
      assert EventSound(w, e);
    }
  }

  lemma AnonymousSound(w: World, r: nat, tenant: string)
    requires Sound(w)
    ensures Sound(w.(requests := w.requests[r := InFlight(tenant, None)]))
  {
    hide Was, Before;
    var v := w.(requests := w.requests[r := InFlight(tenant, None)]);
    forall e | e in v.events ensures EventSound(v, e) {
      assert EventSound(w, e);
    }
  }

  // Recording an event that creates nothing keeps everything known.
  lemma RecordSound(w: World, e: Event)
    requires Sound(w)
    requires match e
      case Initialized(id, tenant) => Was(w.events, Created(id, tenant))
      case Called(_, _) => true
      case Deleted(id) => id !in w.table.bindings && id in w.issued
      case _ => false
    ensures Sound(w.(events := w.events + [e]))
  {
    hide Was, Before;
    var v := w.(events := w.events + [e]);
    forall a ensures Was(v.events, a) <==> Was(w.events, a) || a == e { BeforeMore(w.events, e, a, a); }
    forall id | id in w.table.bindings ensures BindingSound(v.events, id, w.table.bindings[id]) {
      BeforeMore(w.events, e, Created(id, w.table.bindings[id].tenant), Initialized(id, w.table.bindings[id].tenant));
    }
    EventsSound(w, v, e);
  }

  lemma EventsSound(w: World, v: World, e: Event)
    requires Sound(w) && v.events == w.events + [e] && w.issued <= v.issued && EventSound(v, e)
    requires match e case Created(id, _) => id !in w.issued case _ => true
    ensures forall x <- v.events :: EventSound(v, x)
  {
    hide Before;
    forall x | x in v.events ensures EventSound(v, x) {
      if x in w.events {
        assert EventSound(w, x);
      }
    }
  }

  lemma CreatedSound(w: World, id: string, tenant: string, now: int)
    requires Sound(w) && id !in w.issued && !w.table.closed
    ensures Sound(World(w.table.(bindings := w.table.bindings[id := Binding(tenant, now, false)]), w.requests,
      w.issued + {id}, w.events + [Created(id, tenant)]))
  {
    hide Was, Before;
    var e := Created(id, tenant);
    var v := World(w.table.(bindings := w.table.bindings[id := Binding(tenant, now, false)]), w.requests,
      w.issued + {id}, w.events + [e]);
    forall a ensures Was(v.events, a) <==> Was(w.events, a) || a == e { BeforeMore(w.events, e, a, a); }
    forall other ensures !Was(w.events, Created(id, other)) && !Was(w.events, Deleted(id)) { Issued(w, id, other); }
    forall k | k in w.table.bindings ensures BindingSound(v.events, k, w.table.bindings[k]) {
      BeforeMore(w.events, e, Created(k, w.table.bindings[k].tenant), Initialized(k, w.table.bindings[k].tenant));
    }
    EventsSound(w, v, e);
  }

  lemma InitializedSound(w: World, id: string)
    requires Sound(w) && id in w.table.bindings
    ensures var tenant := w.table.bindings[id].tenant;
      Sound(w.(table := w.table.(bindings := w.table.bindings[id := w.table.bindings[id].(initialized := true)]),
        events := w.events + [Initialized(id, tenant)]))
  {
    hide Was, Before;
    var tenant := w.table.bindings[id].tenant;
    var e := Initialized(id, tenant);
    RecordSound(w, e);
    BeforeMore(w.events, e, Created(id, tenant), e);
    var u := w.(events := w.events + [e]);
    var v := u.(table := u.table.(bindings := u.table.bindings[id := u.table.bindings[id].(initialized := true)]));
    forall x | x in v.events ensures EventSound(v, x) { assert EventSound(u, x); }
  }

  lemma ShutSound(w: World)
    requires Sound(w)
    ensures Sound(w.(table := Closed(w.table), events := w.events + [Shut]))
  {
    hide Was, Before;
    var v := w.(table := Closed(w.table), events := w.events + [Shut]);
    forall a ensures Was(v.events, a) <==> Was(w.events, a) || a == Shut { BeforeMore(w.events, Shut, a, a); }
    EventsSound(w, v, Shut);
  }

  lemma AdmitSound(w: World, r: nat, tenant: string, id: string, delete: bool, now: int)
    requires Sound(w)
    ensures Sound(Next(w, Enter(r, tenant, id, delete, now)))
  {
    hide Sound;
    var b := Pruned(w.table.bindings, now);
    ShrunkSound(w, b);
    var v := w.(table := w.table.(bindings := b));
    if !w.table.closed && id in b && b[id].tenant == tenant {
      if delete {
        ShrunkSound(w, b - {id});
        IssuedBinding(w, id);
        RecordSound(w.(table := w.table.(bindings := b - {id})), Deleted(id));
      } else {
        var c := b[id := b[id].(lastSeen := now)];
        ShrunkSound(w, c);
        AdmittedSound(w.(table := w.table.(bindings := c)), r, tenant, id);
      }
    }
  }

  lemma IssuedBinding(w: World, id: string)
    requires Sound(w) && id in w.table.bindings
    ensures id in w.issued
  {}

  lemma OpenSound(w: World, r: nat, id: string, now: int)
    requires Sound(w) && id !in w.issued
    ensures Sound(Next(w, Open(r, id, now)))
  {
    hide Sound;
    var b := Pruned(w.table.bindings, now);
    ShrunkSound(w, b);
    if r in w.requests && !w.table.closed {
      CreatedSound(w.(table := w.table.(bindings := b)), id, w.requests[r].tenant, now);
    }
  }

  // The session a request was admitted to is its tenant's, at whatever point the gate finds it.
  lemma OwnSession(w: World, r: nat)
    requires Sound(w) && r in w.requests && w.requests[r].session.Some?
    requires w.requests[r].session.value in w.table.bindings
    ensures w.table.bindings[w.requests[r].session.value].tenant == w.requests[r].tenant
  {
    hide Before;
    var id := w.requests[r].session.value;
    assert BindingSound(w.events, id, w.table.bindings[id]);
    assert EventSound(w, Created(id, w.requests[r].tenant));
  }

  lemma DispatchSound(w: World, r: nat, m: Message)
    requires Sound(w)
    ensures Sound(Next(w, Dispatch(r, m)))
  {
    hide Sound;
    if r in w.requests && w.requests[r].session.Some? && w.requests[r].session.value in w.table.bindings {
      var id := w.requests[r].session.value;
      OwnSession(w, r);
      InitializedSound(w, id);
      RecordSound(w, Called(id, w.requests[r].tenant));
    }
  }

  lemma NextSound(w: World, s: Step)
    requires Sound(w) && Legal(w, s)
    ensures Sound(Next(w, s))
  {
    hide Sound;
    match s
    case Anonymous(r, tenant) => AnonymousSound(w, r, tenant);
    case Enter(r, tenant, id, delete, now) => AdmitSound(w, r, tenant, id, delete, now);
    case Open(r, id, now) => OpenSound(w, r, id, now);
    case Dispatch(r, m) => DispatchSound(w, r, m);
    case Shutdown => ShutSound(w);
    case Survey(now) => ShrunkSound(w, Pruned(w.table.bindings, now));
  }

  lemma StartSound()
    ensures Sound(START)
  {}

  lemma {:induction false} AlwaysSound(steps: seq<Step>)
    requires LegalRun(START, steps)
    ensures Sound(Run(START, steps))
  {
    hide Sound, Next, Legal;
    if steps == [] {
      StartSound();
    } else {
      AlwaysSound(steps[..|steps| - 1]);
      NextSound(Run(START, steps[..|steps| - 1]), steps[|steps| - 1]);
    }
  }

  // A call passes the gate only as the last event so far, with everything the gate promises.
  lemma NextCall(w: World, s: Step)
    requires Sound(w)
    ensures w.events <= Next(w, s).events && |Next(w, s).events| <= |w.events| + 1
    ensures var v := Next(w, s);
      |v.events| > |w.events| && v.events[|w.events|].Called? ==> CallSound(v.events, |w.events|)
  {
    hide Was, Before, Pruned;
    var v := Next(w, s);
    if |v.events| > |w.events| && v.events[|w.events|].Called? {
      assert v.events[..|w.events|] == w.events;
      var r := s.request;
      OwnSession(w, r);
      assert BindingSound(w.events, w.requests[r].session.value, w.table.bindings[w.requests[r].session.value]);
    }
  }

  // Over all interleavings, every tool call that passed the gate was made on a session created for
  // the requester's tenant, initialized by it after that, not deleted, on a server not closed.
  lemma {:induction false} EveryCallIsGated(steps: seq<Step>, k: nat)
    requires LegalRun(START, steps)
    requires k < |Run(START, steps).events| && Run(START, steps).events[k].Called?
    ensures CallSound(Run(START, steps).events, k)
  {
    hide Sound, Next, Legal, Was, Before;
    if steps != [] {
      var before := steps[..|steps| - 1];
      var w, v := Run(START, before), Run(START, steps);
      AlwaysSound(before);
      NextCall(w, steps[|steps| - 1]);
      if k < |w.events| {
        EveryCallIsGated(before, k);
        assert v.events[..k] == w.events[..k];
      }
    }
  }

  lemma {:induction false} EventsGrow(w: World, steps: seq<Step>)
    ensures w.events <= Run(w, steps).events
  {
    if steps != [] {
      EventsGrow(w, steps[..|steps| - 1]);
    }
  }

  // Once closed, the table is empty after every later step, whatever was in flight.
  lemma ClosedForever(steps: seq<Step>, n: nat)
    requires LegalRun(START, steps) && n < |steps| && steps[n] == Shutdown
    ensures Run(START, steps).table == Table(map[], true)
  {
    hide Next, Legal;
    AlwaysSound(steps);
    ShutStays(START, steps, n);
  }

  lemma {:induction false} ShutStays(w: World, steps: seq<Step>, n: nat)
    requires n < |steps| && steps[n] == Shutdown
    ensures Was(Run(w, steps).events, Shut)
  {
    hide Admit, Create, Gate;
    if n < |steps| - 1 {
      ShutStays(w, steps[..|steps| - 1], n);
    }
  }

  // ---- batches

  datatype Status = OK | ACCEPTED | TOO_LARGE | OTHER(code: int)
  datatype Reply = Reply(status: Status, body: seq<int>)

  const OPEN_BRACKET := 91
  const CLOSE_BRACKET := 93
  const COMMA := 44

  function Bodies(replies: seq<Reply>): seq<seq<int>> {
    if replies == [] then []
    else
      var (before, last) := (Bodies(replies[..|replies| - 1]), replies[|replies| - 1]);
      if last.status == OK then before + [last.body] else before
  }

  // The elements separated by commas, without brackets.
  function Joined(bodies: seq<seq<int>>): seq<int> {
    if bodies == [] then []
    else if |bodies| == 1 then bodies[0]
    else Joined(bodies[..|bodies| - 1]) + [COMMA] + bodies[|bodies| - 1]
  }

  function JsonArray(bodies: seq<seq<int>>): seq<int> {
    [OPEN_BRACKET] + Joined(bodies) + [CLOSE_BRACKET]
  }

  // The room a batch needs: one byte is always kept for a second element's comma.
  function Needed(bodies: seq<seq<int>>): nat {
    |JsonArray(bodies)| + if |bodies| == 1 then 1 else 0
  }

  lemma BodiesMore(replies: seq<Reply>, r: Reply)
    ensures Bodies(replies + [r]) == if r.status == OK then Bodies(replies) + [r.body] else Bodies(replies)
  {
    assert (replies + [r])[..|replies|] == replies;
  }

  lemma JoinedMore(bodies: seq<seq<int>>, body: seq<int>)
    ensures Joined(bodies + [body]) == if bodies == [] then body else Joined(bodies) + [COMMA] + body
  {
    assert (bodies + [body])[..|bodies|] == bodies;
  }

  lemma NeededMore(bodies: seq<seq<int>>, body: seq<int>)
    requires body != []
    ensures Needed(bodies) <= Needed(bodies + [body]) || bodies == []
  {
    JoinedMore(bodies, body);
  }

  lemma {:induction false} NeededGrows(replies: seq<Reply>, n: nat)
    requires n <= |replies| && Bodies(replies[..n]) != []
    requires forall r <- replies :: r.status == OK ==> r.body != []
    ensures Bodies(replies) != [] && Needed(Bodies(replies[..n])) <= Needed(Bodies(replies))
    decreases |replies| - n
  {
    hide Needed;
    if n == |replies| {
      assert replies[..n] == replies;
    } else {
      assert replies[..n + 1] == replies[..n] + [replies[n]] && replies[n] in replies;
      BodiesMore(replies[..n], replies[n]);
      if replies[n].status == OK { NeededMore(Bodies(replies[..n]), replies[n].body); }
      NeededGrows(replies, n + 1);
    }
  }

  predicate Usual(replies: seq<Reply>) {
    forall r <- replies :: r.status in {OK, ACCEPTED}
  }

  // All messages before `n` succeeded and their answers fit; message `n` failed, or its answer does not fit.
  predicate FailsAt(replies: seq<Reply>, max: nat, n: nat, r: Reply)
    requires n < |replies|
  {
    var before := Bodies(replies[..n]);
    && Usual(replies[..n]) && (before != [] ==> Needed(before) <= max)
    && if replies[n].status == OK then r == Reply(TOO_LARGE, []) && Needed(Bodies(replies[..n + 1])) > max
      else replies[n].status != ACCEPTED && r == replies[n]
  }

  // A batch fails at one message only, the first that can be given as the reason.
  lemma OneFailure(replies: seq<Reply>, max: nat, n: nat, r: Reply, m: nat, q: Reply)
    requires forall x <- replies :: x.status == OK ==> x.body != []
    requires n < |replies| && FailsAt(replies, max, n, r) && m < |replies| && FailsAt(replies, max, m, q)
    ensures n == m && r == q
  {
    if m < n {
      FailsOnce(replies, max, n, r, m, q);
    } else if n < m {
      FailsOnce(replies, max, m, q, n, r);
    }
  }

  lemma FailsOnce(replies: seq<Reply>, max: nat, n: nat, r: Reply, m: nat, q: Reply)
    requires forall x <- replies :: x.status == OK ==> x.body != []
    requires m < n < |replies| && FailsAt(replies, max, n, r)
    ensures !FailsAt(replies, max, m, q)
  {
    hide Needed, Bodies;
    assert replies[..n][m] == replies[m] && replies[m] in replies[..n];
    if replies[m].status == OK {
      assert replies[..n][..m + 1] == replies[..m + 1] == replies[..m] + [replies[m]];
      BodiesMore(replies[..m], replies[m]);
      forall x <- replies[..n] ensures x.status == OK ==> x.body != [] { assert x in replies; }
      NeededGrows(replies[..n], m + 1);
    }
  }

  // A batch is answered by the array of its answers exactly when every message succeeded and the array
  // fits; by nothing when no message wanted an answer; otherwise by the first failure.
  method Batch(replies: seq<Reply>, max: nat) returns (r: Reply)
    requires forall x <- replies :: x.status == OK ==> x.body != []
    ensures r.status == OK <==> Usual(replies) && Bodies(replies) != [] && Needed(Bodies(replies)) <= max
    ensures r.status == OK ==> r.body == JsonArray(Bodies(replies)) && |r.body| <= max
    ensures r.status == ACCEPTED <==> Usual(replies) && Bodies(replies) == []
    ensures r.status !in {OK, ACCEPTED} ==> exists n :: 0 <= n < |replies| && FailsAt(replies, max, n, r)
  {
    hide Needed, Bodies, Joined;
    var output, count, n := [OPEN_BRACKET], 0, 0;
    NothingJoined();
    while n < |replies|
      invariant 0 <= n <= |replies| && Usual(replies[..n])
      invariant count == |Bodies(replies[..n])|
      invariant output == [OPEN_BRACKET] + Joined(Bodies(replies[..n]))
      invariant count > 0 ==> Needed(Bodies(replies[..n])) <= max
    {
      assert replies[..n + 1] == replies[..n] + [replies[n]] && replies[n] in replies;
      BodiesMore(replies[..n], replies[n]);
      var reply := replies[n];
      if reply.status == ACCEPTED {
        n := n + 1;
        continue;
      }
      if reply.status != OK {
        assert FailsAt(replies, max, n, reply);
        return reply;
      }
      var remaining := if max < |output| + 2 then 0 else max - (|output| + 2);
      JoinedMore(Bodies(replies[..n]), reply.body);
      Fits(Bodies(replies[..n]), reply.body, max);
      if |reply.body| > remaining {
        if Usual(replies) { NeededGrows(replies, n + 1); }
        assert FailsAt(replies, max, n, Reply(TOO_LARGE, []));
        return Reply(TOO_LARGE, []);
      }
      if count > 0 {
        output := output + [COMMA];
      }
      output := output + reply.body;
      count := count + 1;
      n := n + 1;
    }
    assert replies[..n] == replies;
    if count == 0 {
      return Reply(ACCEPTED, []);
    }
    NeededIs(Bodies(replies));
    return Reply(OK, output + [CLOSE_BRACKET]);
  }

  // A batch of one message whose answer would fill the bound exactly is refused; of several, none is.
  lemma OnlySinglesNeedMore(bodies: seq<seq<int>>)
    requires bodies != []
    ensures Needed(bodies) > |JsonArray(bodies)| <==> |bodies| == 1
  {}

  method RefuseExactFit(body: seq<int>) returns (r: Reply)
    requires body != []
    ensures r == Reply(TOO_LARGE, [])
    ensures Usual([Reply(OK, body)]) && |JsonArray(Bodies([Reply(OK, body)]))| == |body| + 2
  {
    var replies := [Reply(OK, body)];
    BodiesMore([], replies[0]);
    assert [] + [replies[0]] == replies && Bodies([]) == [] && Bodies(replies) == [body];
    OnlySinglesNeedMore([body]);
    r := Batch(replies, |body| + 2);
  }

  lemma NothingJoined()
    ensures Bodies([]) == [] && Joined([]) == []
  {}

  lemma NeededIs(bodies: seq<seq<int>>)
    ensures |JsonArray(bodies)| <= Needed(bodies)
  {}

  // The room left before an element decides exactly whether the batch with it fits.
  lemma Fits(bodies: seq<seq<int>>, body: seq<int>, max: nat)
    requires body != []
    ensures var taken := 1 + |Joined(bodies)|;
      |body| <= (if max < taken + 2 then 0 else max - (taken + 2)) <==> Needed(bodies + [body]) <= max
  {
    JoinedMore(bodies, body);
  }
}
