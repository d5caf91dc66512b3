/**
 When a provider's credentials are exchanged and what a request gets (auth.rs), mode by mode and with the
 times written out, in nanoseconds.
 */
module AuthLaws {
  import opened Wrappers
  import opened Text
  import opened AuthSessions

  predicate Refreshable(m: Material) {
    m.refresh.Some? && Trim(m.refresh.value) != ""
  }

  // A call of the session with this memory exchanges the material it loaded.
  predicate Exchanges(s: Session, m: Material, now: int, proactive: bool, was: Memory) {
    s.Exchanging(m, now, proactive, was.rejected, was.disabled, was.failure)
  }

  // ---- when

  // Anthropic: two minutes ahead.
  lemma AnthropicLaw(s: Session, m: Material, now: int, proactive: bool, was: Memory)
    requires s.mode == AnthropicOAuth
    ensures Exchanges(s, m, now, proactive, was) <==>
      && Refreshable(m) && !was.disabled
      && (Trim(m.access) == "" || was.rejected == Some(Trim(m.access))
        || (m.expiresAt.Some? && m.expiresAt.value - now <= 120_000_000_000))
  {}

  // OpenAI: a token that names its end, five minutes ahead if asked to be early, else at its end; an
  // opaque one only if asked to be early, eight days after the last exchange.
  lemma OpenAiLaw(s: Session, m: Material, now: int, proactive: bool, was: Memory)
    requires s.mode == OpenAi
    ensures Exchanges(s, m, now, proactive, was) <==>
      && Refreshable(m) && !was.disabled
      && (Trim(m.access) == "" || was.rejected == Some(Trim(m.access))
        || match s.expiryOf(m.access)
          case Some(end) => end - now <= (if proactive then 300_000_000_000 else 0)
          case None => proactive && m.lastRefresh.Some? && now - m.lastRefresh.value >= 691_200_000_000_000)
  {}

  // Copilot: five minutes ahead, but not within 15 seconds of a failure with the same revision.
  lemma CopilotLaw(s: Session, m: Material, now: int, proactive: bool, was: Memory)
    requires s.mode == Copilot
    ensures Exchanges(s, m, now, proactive, was) <==>
      && Refreshable(m) && !was.disabled
      && (Trim(m.access) == "" || was.rejected == Some(Trim(m.access))
        || (m.expiresAt.Some? && m.expiresAt.value - now <= 300_000_000_000))
      && !(was.failure.Some? && was.failure.value.0 == m.revision && now - was.failure.value.1 < 15_000_000_000)
  {}

  lemma FixedLaw(s: Session, m: Material, now: int, proactive: bool, was: Memory)
    requires s.mode in {ApiKey, Anonymous}
    ensures !Exchanges(s, m, now, proactive, was)
  {}

  // The public test of Anthropic material looks half a lifetime ahead, at most four hours.
  lemma NeedsRefreshLaw(m: Material, now: int, expiryOf: string -> Option<int>)
    requires Refreshable(m) && Trim(m.access) != "" && m.expiresAt.Some?
    ensures NeedsRefresh(m, AnthropicOAuth, now, expiryOf) <==>
      var left := m.expiresAt.value - now;
      left <= 14_400_000_000_000 &&
      (m.lastRefresh.Some? && m.expiresAt.value > m.lastRefresh.value ==>
        2 * left <= m.expiresAt.value - m.lastRefresh.value)
  {}

  // ---- what a call answers

  const DENIED := Error(PermissionDenied, false)

  // The first answer of the store is this material, of the right account.
  predicate Loads(s: Session, at: Place, m: Material) {
    s.loads(at.load) == Ok(m) && (s.account == None || s.account == m.account)
  }

  // Material a request can use: a token not rejected, and for OpenAI an account.
  predicate Servable(s: Session, m: Material, was: Memory) {
    && was.rejected != Some(Trim(m.access)) && (s.mode == Anonymous || Trim(m.access) != "")
    && (s.mode == OpenAi ==> m.account.Some? && Trim(m.account.value) != "")
  }

  // What a call hands out of material it settled on.
  function Serves(s: Session, m: Material, active: bool, was: Memory): Result<Material, Error> {
    if !Servable(s, m, was) then Err(DENIED) else if active then Ok(m) else Err(Error(Cancelled, false))
  }

  lemma FailedLoadLaw(s: Session, at: Place, proactive: bool, active: bool, was: Memory)
    ensures s.loads(at.load).Err? ==>
      s.Answered(at, proactive, active, was) == Err(s.loads(at.load).error)
    ensures s.loads(at.load).Ok? && s.account.Some? && s.account != s.loads(at.load).value.account ==>
      s.Answered(at, proactive, active, was) == Err(DENIED)
  {}

  // Without an exchange a request gets what the store holds; of a token that was rejected, nothing.
  lemma KeptLaw(s: Session, at: Place, m: Material, proactive: bool, active: bool, was: Memory)
    requires Loads(s, at, m) && s.mode != Copilot && !Exchanges(s, m, s.clock(at.clock), proactive, was)
    ensures s.Answered(at, proactive, active, was) == Serves(s, m, active, was)
  {
    hide Due;
  }

  // So Anthropic material that could have been exchanged is handed out with two minutes left.
  lemma NotExpiredLaw(s: Session, at: Place, m: Material, proactive: bool, active: bool, was: Memory)
    requires s.mode == AnthropicOAuth && Loads(s, at, m) && Refreshable(m) && !was.disabled
    requires !Exchanges(s, m, s.clock(at.clock), proactive, was) && s.Answered(at, proactive, active, was).Ok?
    ensures s.Answered(at, proactive, active, was) == Ok(m)
    ensures m.expiresAt.Some? ==> m.expiresAt.value > s.clock(at.clock) + 120_000_000_000
  {
    KeptLaw(s, at, m, proactive, active, was);
    AnthropicLaw(s, m, s.clock(at.clock), proactive, was);
    hide Due;
  }

  // Copilot material that is due while a failure cools down serves until it expires.
  lemma CoolingLaw(s: Session, at: Place, m: Material, proactive: bool, active: bool, was: Memory)
    requires Loads(s, at, m) && s.mode == Copilot && !Exchanges(s, m, s.clock(at.clock), proactive, was)
    ensures var (now, later) := (s.clock(at.clock), s.clock(at.clock + 1));
      var due := Trim(m.access) == "" || was.rejected == Some(Trim(m.access))
        || (m.expiresAt.Some? && m.expiresAt.value - now <= 300_000_000_000);
      s.Answered(at, proactive, active, was) ==
        if due && Refreshable(m) && !was.disabled && (!Servable(s, m, was) || m.expiresAt.value <= later)
        then Err(Error(Provider, false))
        else Serves(s, m, active, was)
  {}

  // A store's answer as a call ends with it.
  function Ends(s: Session, answer: Result<Material, Error>, active: bool, was: Memory): Result<Material, Error> {
    match answer
    case Err(e) => Err(e)
    case Ok(m) => if s.account.Some? && s.account != m.account then Err(DENIED) else Serves(s, m, active, was)
  }

  // After an exchange a request gets what the store holds then, whoever's token that is.
  lemma ExchangedLaw(s: Session, at: Place, m: Material, x: Material, proactive: bool, active: bool, was: Memory)
    requires Loads(s, at, m) && Exchanges(s, m, s.clock(at.clock), proactive, was)
    requires s.refreshes(at.refresh) == Fresh(x)
    ensures s.Answered(at, proactive, active, was) ==
      if s.account.Some? && s.account != x.account then Err(DENIED)
      else if s.swaps(at.swap).Err? then Err(s.swaps(at.swap).error)
      else Ends(s, s.loads(at.load + 1), active, was)
  {
    hide Due, Cooling;
  }

  // An exchange dropped with the request, cancelled or out of time fails the call.
  lemma DroppedLaw(s: Session, at: Place, m: Material, e: Error, proactive: bool, active: bool, was: Memory)
    requires Loads(s, at, m) && Exchanges(s, m, s.clock(at.clock), proactive, was)
    requires s.refreshes(at.refresh) == Interrupted(e)
      || (s.refreshes(at.refresh) == Failed(e) && e.category in {Cancelled, DeadlineExceeded})
    ensures s.Answered(at, proactive, active, was) == Err(e)
  {
    hide Due, Cooling;
  }

  // The refresh token the store holds after a refusal is another one, not the one just refused.
  predicate AnotherRefresh(y: Material, m: Material) {
    Refreshable(y) && (m.refresh.None? || Trim(y.refresh.value) != Trim(m.refresh.value))
  }

  // A token other than the one exchanged and not expired.
  predicate Replaces(y: Material, m: Material, now: int) {
    Trim(y.access) !in {"", Trim(m.access)} && (y.expiresAt.Some? ==> y.expiresAt.value > now)
  }

  // After a refused exchange a request gets a token rotated meanwhile or, with Anthropic and Copilot, one
  // that is still good and was not rejected; else it gets the refusal.
  lemma RefusedLaw(
    s: Session, at: Place, m: Material, e: Error, y: Material, proactive: bool, active: bool, was: Memory)
    requires Loads(s, at, m) && Exchanges(s, m, s.clock(at.clock), proactive, was)
    requires s.refreshes(at.refresh) == Failed(e) && e.category !in {Cancelled, DeadlineExceeded}
    requires Loads(s, at.(load := at.load + 1), y)
    requires !(s.mode == OpenAi && e.http && AnotherRefresh(y, m)) || Replaces(y, m, s.clock(at.clock + 1))
    ensures var now := s.clock(at.clock + 1);
      var again := y.expiresAt.Some? && Trim(y.access) !in {"", Trim(m.access)};
      var later := s.clock(if again then at.clock + 2 else at.clock + 1);
      var good := s.mode in {AnthropicOAuth, Copilot} && was.rejected != Some(Trim(m.access))
        && Trim(y.access) != "" && (y.expiresAt.Some? ==> y.expiresAt.value > later);
      s.Answered(at, proactive, active, was) ==
        if Replaces(y, m, now) || good then Serves(s, y, active, was) else Err(e)
  {
    hide Due, Cooling;
  }

  // What the store answers to a load that is checked.
  function Held(s: Session, answer: Result<Material, Error>): Result<Material, Error> {
    if answer.Ok? && s.account.Some? && s.account != answer.value.account then Err(DENIED) else answer
  }

  lemma RenewalOf(s: Session, at: Place, m: Material, proactive: bool, was: Memory)
    requires Loads(s, at, m) && Exchanges(s, m, s.clock(at.clock), proactive, was)
    ensures s.Current(at.(load := at.load + 1, clock := at.clock + 1), m, proactive, s.clock(at.clock), was) ==
      s.RenewedTo(at.(load := at.load + 1, clock := at.clock + 1), m,
        Round(was.rejected == Some(Trim(m.access)), s.clock(at.clock), was.failure, false))
  {
    hide Due, Cooling, Session.RenewedTo;
  }

  lemma SecondRenewal(s: Session, at: Place, m: Material, e: Error, y: Material, x: Material, round: Round)
    requires s.mode == OpenAi && !round.retried && Loads(s, at, y) && s.refreshes(at.refresh) == Failed(e)
    requires e.http && e.category !in {Cancelled, DeadlineExceeded}
    requires AnotherRefresh(y, m) && !Replaces(y, m, s.clock(at.clock)) && s.refreshes(at.refresh + 1) == Fresh(x)
    ensures s.RenewedTo(at, m, round).result ==
      if s.account.Some? && s.account != x.account then Err(DENIED)
      else if s.swaps(at.swap).Err? then Err(s.swaps(at.swap).error)
      else Held(s, s.loads(at.load + 1))
  {
    s.FailedSettles(at, m, round);
    var next := Place(at.refresh + 1, at.swap, at.load + 1, at.clock + Readings(y, m));
    s.AnswerSettles(next, y, round.(retried := true));
    hide Session.RenewedTo, Session.SettledAt, Session.Settled, Readings, Trim;
  }

  // Only OpenAI, refused over HTTP, tries once more, with the refresh token the host has stored meanwhile.
  lemma SecondLaw(
    s: Session, at: Place, m: Material, e: Error, y: Material, x: Material, proactive: bool, active: bool,
    was: Memory)
    requires Loads(s, at, m) && Exchanges(s, m, s.clock(at.clock), proactive, was) && s.mode == OpenAi
    requires s.refreshes(at.refresh) == Failed(e) && e.http && e.category !in {Cancelled, DeadlineExceeded}
    requires Loads(s, at.(load := at.load + 1), y) && AnotherRefresh(y, m) && !Replaces(y, m, s.clock(at.clock + 1))
    requires s.refreshes(at.refresh + 1) == Fresh(x)
    ensures s.Answered(at, proactive, active, was) ==
      if s.account.Some? && s.account != x.account then Err(DENIED)
      else if s.swaps(at.swap).Err? then Err(s.swaps(at.swap).error)
      else Ends(s, s.loads(at.load + 2), active, was)
  {
    var from := at.(load := at.load + 1, clock := at.clock + 1);
    RenewalOf(s, at, m, proactive, was);
    var round := Round(was.rejected == Some(Trim(m.access)), s.clock(at.clock), was.failure, false);
    SecondRenewal(s, from, m, e, y, x, round);
    hide Session.Current, Session.RenewedTo, Session.Exchanging, Trim;
  }
}
