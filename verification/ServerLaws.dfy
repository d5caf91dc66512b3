/**
 When an MCP server's session table lets a request in (server.rs), with its limits in plain numbers: times
 are seconds.
 */
module ServerLaws {
  import opened Wrappers
  import opened ServerSessions

  // The sessions still in use at a time: seen less than half an hour ago.
  predicate InUse(t: Table, id: string, now: int) {
    id in t.bindings && now - t.bindings[id].lastSeen < 1800
  }

  ghost predicate OnlyInUse(t: Table, u: Table, now: int) {
    && u.closed == t.closed && (forall id :: id in u.bindings <==> InUse(t, id, now))
    && forall id <- u.bindings :: u.bindings[id] == t.bindings[id]
  }

  // A request that names a session gets in if the session is in use and the tenant's own; it counts as
  // seen then, or ends. Otherwise only the sessions no longer in use are gone.
  lemma AdmitLaw(t: Table, id: string, tenant: string, delete: bool, now: int)
    ensures var (u, o) := Admit(t, id, tenant, delete, now);
      if t.closed then u == t && o == Unavailable
      else if !InUse(t, id, now) || t.bindings[id].tenant != tenant then o == Forbidden && OnlyInUse(t, u, now)
      else
        && o == (if delete then NoContent else Proceed) && !u.closed
        && (forall x :: x in u.bindings <==> InUse(t, x, now) && (delete ==> x != id))
        && (forall x <- u.bindings :: x != id ==> u.bindings[x] == t.bindings[x])
        && (!delete ==> u.bindings[id] == t.bindings[id].(lastSeen := now))
  {}

  function Using(t: Table, now: int): set<string> {
    set id | id in t.bindings && now - t.bindings[id].lastSeen < 1800
  }

  function UsingOf(t: Table, tenant: string, now: int): set<string> {
    set id | id in t.bindings && now - t.bindings[id].lastSeen < 1800 && t.bindings[id].tenant == tenant
  }

  // A session is opened as long as fewer than 1024 are in use, fewer than 128 of them the tenant's.
  lemma CreateLaw(t: Table, tenant: string, id: string, now: int)
    ensures var (u, o) := Create(t, tenant, id, now);
      if t.closed then u == t && o == Unavailable
      else if |Using(t, now)| < 1024 && |UsingOf(t, tenant, now)| < 128 then
        && o == Proceed && !u.closed && u.bindings.Keys == Using(t, now) + {id}
        && u.bindings[id] == Binding(tenant, now, false)
        && forall x <- u.bindings :: x != id ==> u.bindings[x] == t.bindings[x]
      else o == TooManyRequests && OnlyInUse(t, u, now)
  {
    var b := Pruned(t.bindings, now);
    assert b.Keys == Using(t, now) && |b| == |b.Keys|;
    assert OfTenant(b, tenant) == UsingOf(t, tenant, now);
  }

  // The notification that a session is initialized is accepted and kept; anything else needs it.
  lemma GateLaw(t: Table, id: string, m: Message)
    ensures var (u, o) := Gate(t, id, m);
      if t.closed then u == t && o == Unavailable
      else if id !in t.bindings then u == t && o == Forbidden
      else if m == InitializedNotification then
        o == Accepted && u == t.(bindings := t.bindings[id := t.bindings[id].(initialized := true)])
      else
        u == t && o ==
          if !t.bindings[id].initialized then BadRequest else if m == Notification then Accepted else Proceed
  {}

  // ---- a client that does as it should

  lemma {:induction false} RunMore(w: World, steps: seq<Step>, s: Step)
    ensures Run(w, steps + [s]) == Next(Run(w, steps), s)
  {
    assert (steps + [s])[..|steps|] == steps;
  }

  // The world after a request of this tenant was let in to the session.
  lemma EnterLaw(w: World, r: nat, tenant: string, id: string, now: int)
    requires !w.table.closed && InUse(w.table, id, now) && w.table.bindings[id].tenant == tenant
    ensures var v := Next(w, Enter(r, tenant, id, false, now));
      && !v.table.closed && id in v.table.bindings && v.events == w.events
      && v.table.bindings[id] == w.table.bindings[id].(lastSeen := now)
      && r in v.requests && v.requests[r] == InFlight(tenant, Some(id))
  {
    hide Admit;
    AdmitLaw(w.table, id, tenant, false, now);
  }

  // While there is room, a client that opens a session, says that it is initialized and calls, each within
  // half an hour of the last, gets its call worked on.
  lemma HandshakeLaw(
    w: World, tenant: string, id: string, r: nat, r1: nat, r2: nat, t0: int, t1: int, t2: int) returns (v: World)
    requires !w.table.closed && |Using(w.table, t0)| < 1024 && |UsingOf(w.table, tenant, t0)| < 128
    requires t1 < t0 + 1800 && t2 < t1 + 1800
    ensures v == Run(w, [Anonymous(r, tenant), Open(r, id, t0), Enter(r1, tenant, id, false, t1),
      Dispatch(r1, InitializedNotification), Enter(r2, tenant, id, false, t2), Dispatch(r2, Request)])
    ensures v.events == w.events + [Created(id, tenant), Initialized(id, tenant), Called(id, tenant)]
  {
    hide Admit, Create, Gate;
    var s1, s2 := Anonymous(r, tenant), Open(r, id, t0);
    var s3, s4 := Enter(r1, tenant, id, false, t1), Dispatch(r1, InitializedNotification);
    var s5, s6 := Enter(r2, tenant, id, false, t2), Dispatch(r2, Request);
    var a := Next(w, s1);
    CreateLaw(w.table, tenant, id, t0);
    var b := Next(a, s2);
    EnterLaw(b, r1, tenant, id, t1);
    var c := Next(b, s3);
    GateLaw(c.table, id, InitializedNotification);
    var d := Next(c, s4);
    EnterLaw(d, r2, tenant, id, t2);
    var e := Next(d, s5);
    GateLaw(e.table, id, Request);
    v := Next(e, s6);
    hide Next;
    Steps(w, s1, s2, s3, s4, s5, s6);
    assert w.events + [Created(id, tenant)] + [Initialized(id, tenant)] + [Called(id, tenant)]
      == w.events + [Created(id, tenant), Initialized(id, tenant), Called(id, tenant)];
  }

  lemma Steps(w: World, s1: Step, s2: Step, s3: Step, s4: Step, s5: Step, s6: Step)
    ensures Run(w, [s1, s2, s3, s4, s5, s6]) == Next(Next(Next(Next(Next(Next(w, s1), s2), s3), s4), s5), s6)
  {
    hide Next;
    RunMore(w, [], s1);
    RunMore(w, [] + [s1], s2);
    RunMore(w, [] + [s1] + [s2], s3);
    RunMore(w, [] + [s1] + [s2] + [s3], s4);
    RunMore(w, [] + [s1] + [s2] + [s3] + [s4], s5);
    RunMore(w, [] + [s1] + [s2] + [s3] + [s4] + [s5], s6);
    assert [] + [s1] + [s2] + [s3] + [s4] + [s5] + [s6] == [s1, s2, s3, s4, s5, s6];
  }

  // ---- batches

  // The answer to a batch is the JSON array of its bodies: brackets, and a comma between two.
  lemma ArrayLaw(bodies: seq<seq<int>>, body: seq<int>, more: seq<int>)
    ensures JsonArray([]) == [91, 93] && JsonArray([body]) == [91] + body + [93]
    ensures var all := bodies + [body];
      JsonArray(all + [more])[..|JsonArray(all)| - 1] == JsonArray(all)[..|JsonArray(all)| - 1]
      && JsonArray(all + [more]) == JsonArray(all)[..|JsonArray(all)| - 1] + [44] + more + [93]
  {
    var all := bodies + [body];
    JoinedMore(all, more);
    NothingJoined();
    JoinedMore([], body);
    assert [] + [body] == [body];
    hide Joined;
    var j := Joined(all);
    assert JsonArray(all) == [91] + j + [93] && JsonArray(all)[..|JsonArray(all)| - 1] == [91] + j;
    assert JsonArray(all + [more]) == [91] + (j + [44] + more) + [93] == [91] + j + [44] + more + [93];
  }

  // The bodies of a batch are those of its successful replies, in order.
  lemma BodiesLaw(replies: seq<Reply>, r: Reply)
    ensures Bodies([]) == []
    ensures Bodies(replies + [r]) == if r.status == OK then Bodies(replies) + [r.body] else Bodies(replies)
  {
    BodiesMore(replies, r);
  }
}
