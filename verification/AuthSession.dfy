/**
 A provider's credential session (auth.rs): refreshing against a store that others rotate at will. The
 store, the refresher and the clock answer whatever they like; the log keeps what was asked of them.
 */
module AuthSessions {
  import opened Wrappers
  import opened Text

  datatype Mode = ApiKey | Anonymous | OpenAi | AnthropicOAuth | Copilot
  datatype Category = Cancelled | DeadlineExceeded | Provider | PermissionDenied | Other
  datatype Error = Error(category: Category, http: bool)

  datatype Material = Material(
    access: string, refresh: Option<string>, account: Option<string>, expiresAt: Option<int>,
    lastRefresh: Option<int>, revision: nat)

  // A refresh is dropped with the request, fails, or yields new material.
  datatype Refreshed = Interrupted(e: Error) | Failed(e: Error) | Fresh(m: Material)

  datatype Event =
    | Loaded(m: Material)
    | Exchanged(m: Material)
    | Replaced(revision: nat, m: Material)
    | RejectedToken(token: string)
    | Returned(m: Material)

  // Where the answers of the refresher, the swaps, the loads and the clock stand.
  datatype Place = Place(refresh: nat, swap: nat, load: nat, clock: nat)

  // One exchange of a call: whether its token was rejected, its time, the failure remembered before it.
  datatype Round = Round(rejectedCurrent: bool, now: int, failure: Option<(nat, int)>, retried: bool)

  // An outcome, and the Copilot failure remembered after it.
  datatype Settlement = Settlement(result: Result<Material, Error>, failure: Option<(nat, int)>)

  // What a session remembers between calls.
  datatype Memory = Memory(rejected: Option<string>, disabled: bool, failure: Option<(nat, int)>)

  // Time in nanoseconds.
  const SECOND := 1_000_000_000
  const HOUR := 3600 * SECOND
  const COOLDOWN := 15 * SECOND

  const UNAVAILABLE := Error(PermissionDenied, false)

  function Token(m: Material): string {
    Trim(m.access)
  }

  predicate HasRefresh(m: Material) {
    m.refresh.Some? && Trim(m.refresh.value) != ""
  }

  // ---- when a refresh is due

  function Lead(m: Material): int {
    if m.lastRefresh.Some? && m.expiresAt.Some? && m.expiresAt.value > m.lastRefresh.value
    then (var half := (m.expiresAt.value - m.lastRefresh.value) / 2; if half < 4 * HOUR then half else 4 * HOUR)
    else 4 * HOUR
  }

  // Opaque tokens: after eight days, or shortly before the recorded expiry.
  predicate NeedsRefresh(m: Material, mode: Mode, now: int, expiryOf: string -> Option<int>) {
    if mode in {ApiKey, Anonymous} || !HasRefresh(m) then false
    else if Token(m) == "" then true
    else if mode == OpenAi then
      (if expiryOf(m.access).Some? then expiryOf(m.access).value <= now
      else m.lastRefresh.Some? && m.lastRefresh.value <= now && now - m.lastRefresh.value >= 8 * 24 * HOUR)
    else m.expiresAt.Some? && m.expiresAt.value <= now + (if mode == Copilot then 300 * SECOND else Lead(m))
  }

  predicate Due(m: Material, mode: Mode, now: int, proactive: bool, expiryOf: string -> Option<int>) {
    match mode
    case OpenAi =>
      Token(m) == "" ||
      (if expiryOf(m.access).Some? then expiryOf(m.access).value <= now + (if proactive then 300 * SECOND else 0)
      else proactive && NeedsRefresh(m, mode, now, expiryOf))
    case AnthropicOAuth => Token(m) == "" || (m.expiresAt.Some? && m.expiresAt.value <= now + 120 * SECOND)
    case _ => NeedsRefresh(m, mode, now, expiryOf)
  }

  predicate Unexpired(m: Material, now: int) {
    m.expiresAt.None? || m.expiresAt.value > now
  }

  // Another, usable token took the place of the exchanged one.
  predicate Rotates(latest: Material, original: Material, now: int) {
    Token(latest) != "" && Token(latest) != Token(original) && Unexpired(latest, now)
  }

  // How often the clock is read to find that out.
  function Readings(latest: Material, original: Material): nat {
    if Token(latest) != "" && Token(latest) != Token(original) && latest.expiresAt.Some? then 1 else 0
  }

  predicate Final(e: Error) {
    e.category in {Cancelled, DeadlineExceeded}
  }

  // ---- what the log says

  function LastLoad(log: seq<Event>): Option<Material> {
    if log == [] then None
    else if log[|log| - 1].Loaded? then Some(log[|log| - 1].m)
    else LastLoad(log[..|log| - 1])
  }

  function Exchanges(log: seq<Event>): nat {
    if log == [] then 0 else Exchanges(log[..|log| - 1]) + if log[|log| - 1].Exchanged? then 1 else 0
  }

  lemma LastLoadMore(log: seq<Event>, e: Event)
    ensures LastLoad(log + [e]) == if e.Loaded? then Some(e.m) else LastLoad(log)
    ensures Exchanges(log + [e]) == Exchanges(log) + if e.Exchanged? then 1 else 0
  {
    assert (log + [e])[..|log|] == log;
  }

  // What is exchanged was loaded last, and what is stored replaces the revision that was exchanged.
  ghost predicate Disciplined(log: seq<Event>) {
    forall k :: 0 <= k < |log| ==> StepDisciplined(log[..k], log[k])
  }

  predicate StepDisciplined(before: seq<Event>, e: Event) {
    && (e.Exchanged? ==> LastLoad(before) == Some(e.m))
    && (e.Replaced? ==>
      before != [] && before[|before| - 1].Exchanged? && before[|before| - 1].m.revision == e.revision)
  }

  lemma DisciplinedMore(log: seq<Event>, e: Event)
    requires Disciplined(log) && StepDisciplined(log, e)
    ensures Disciplined(log + [e])
  {
    hide StepDisciplined;
    var all := log + [e];
    forall k | 0 <= k < |all| ensures StepDisciplined(all[..k], all[k]) {
      if k < |log| {
        assert all[..k] == log[..k] && all[k] == log[k];
      } else {
        assert all[..k] == log;
      }
    }
  }

  // A load after entry `i` observed a token other than the one rejected there.
  ghost predicate Rotated(log: seq<Event>, i: nat)
    requires i < |log| && log[i].RejectedToken?
  {
    exists k :: i < k < |log| && log[k].Loaded? && Token(log[k].m) != log[i].token
  }

  // No call returned a rejected token before a load had observed another one.
  ghost predicate NeverReturnsRejected(log: seq<Event>) {
    forall i, j ::
      (0 <= i < j < |log| && log[i].RejectedToken? && log[j].Returned? && Token(log[j].m) == log[i].token) ==>
      Rotated(log[..j], i)
  }

  // A rejected token is remembered until it was seen replaced.
  ghost predicate Remembers(log: seq<Event>, rejected: Option<string>) {
    forall i :: 0 <= i < |log| && log[i].RejectedToken? ==> rejected == Some(log[i].token) || Rotated(log, i)
  }

  lemma RotatedMore(log: seq<Event>, more: seq<Event>, i: nat)
    requires i < |log| && log[i].RejectedToken? && Rotated(log, i)
    ensures Rotated(log + more, i)
  {
    var k :| i < k < |log| && log[k].Loaded? && Token(log[k].m) != log[i].token;
    assert (log + more)[k] == log[k] && (log + more)[i] == log[i];
  }

  // What is asked of the store and the refresher changes neither.
  lemma AskedKeeps(log: seq<Event>, e: Event, rejected: Option<string>)
    requires NeverReturnsRejected(log) && Remembers(log, rejected) && !e.RejectedToken? && !e.Returned?
    ensures NeverReturnsRejected(log + [e]) && Remembers(log + [e], rejected)
  {
    hide Rotated, Token;
    var all := log + [e];
    forall i, j | 0 <= i < j < |all| && all[i].RejectedToken? && all[j].Returned? && Token(all[j].m) == all[i].token
      ensures Rotated(all[..j], i)
    {
      assert all[i] == log[i] && all[j] == log[j] && all[..j] == log[..j];
    }
    forall i | 0 <= i < |all| && all[i].RejectedToken? ensures rejected == Some(all[i].token) || Rotated(all, i) {
      assert all[i] == log[i];
      if Rotated(log, i) { RotatedMore(log, [e], i); }
    }
  }

  // Rejecting the token that was just loaded.
  lemma RejectKeeps(log: seq<Event>, m: Material, rejected: Option<string>)
    requires NeverReturnsRejected(log) && Remembers(log, rejected) && log != [] && log[|log| - 1] == Loaded(m)
    ensures NeverReturnsRejected(log + [RejectedToken(Token(m))])
    ensures Remembers(log + [RejectedToken(Token(m))], Some(Token(m)))
  {
    hide Token;
    var all := log + [RejectedToken(Token(m))];
    forall i, j | 0 <= i < j < |all| && all[i].RejectedToken? && all[j].Returned? && Token(all[j].m) == all[i].token
      ensures Rotated(all[..j], i)
    {
      assert all[i] == log[i] && all[j] == log[j] && all[..j] == log[..j];
    }
    forall i | 0 <= i < |all| && all[i].RejectedToken? ensures Some(Token(m)) == Some(all[i].token) || Rotated(all, i) {
      if i < |log| && all[i].token != Token(m) {
        assert all[|log| - 1] == Loaded(m);
      }
    }
  }

  // Seeing another token clears the memory; what is returned then was not rejected since.
  lemma ClearKeeps(log: seq<Event>, m: Material, rejected: Option<string>, j: nat)
    requires Remembers(log, rejected) && LoadedAt(log, j, m) && (rejected.Some? ==> rejected.value != Token(m))
    requires forall i :: j < i < |log| ==> !log[i].RejectedToken?
    ensures Remembers(log, None)
  {
    hide Token;
    forall i | 0 <= i < |log| && log[i].RejectedToken? ensures Rotated(log, i) {
      if rejected == Some(log[i].token) {
        assert i < j && log[j].Loaded? && Token(log[j].m) != log[i].token;
      }
    }
  }

  predicate LoadedAt(log: seq<Event>, j: nat, m: Material) {
    j < |log| && log[j] == Loaded(m)
  }

  lemma ReturnKeeps(log: seq<Event>, m: Material)
    requires NeverReturnsRejected(log) && Remembers(log, None)
    ensures NeverReturnsRejected(log + [Returned(m)]) && Remembers(log + [Returned(m)], None)
  {
    hide Rotated, Token;
    var all := log + [Returned(m)];
    forall i, j | 0 <= i < j < |all| && all[i].RejectedToken? && all[j].Returned? && Token(all[j].m) == all[i].token
      ensures Rotated(all[..j], i)
    {
      assert all[i] == log[i];
      if j < |log| {
        assert all[j] == log[j] && all[..j] == log[..j];
      } else {
        assert all[..j] == log;
      }
    }
    forall i | 0 <= i < |all| && all[i].RejectedToken? ensures Rotated(all, i) {
      assert all[i] == log[i];
      RotatedMore(log, [Returned(m)], i);
    }
  }

  class Session {
    const mode: Mode
    const account: Option<string>
    const expiryOf: string -> Option<int>
    // what the store, the refresher and the clock answer, call by call
    const loads: nat -> Result<Material, Error>
    const refreshes: nat -> Refreshed
    const swaps: nat -> Result<bool, Error>
    const clock: nat -> int
    var loadCount: nat
    var refreshCount: nat
    var swapCount: nat
    var clockCount: nat
    var refreshDisabled: bool
    var rejected: Option<string>
    var copilotFailure: Option<(nat, int)>
    ghost var log: seq<Event>

    ghost predicate Valid()
      reads this`log, this`rejected
    {
      NeverReturnsRejected(log) && Remembers(log, rejected) && Disciplined(log)
    }

    constructor (mode: Mode, account: Option<string>, expiryOf: string -> Option<int>,
        loads: nat -> Result<Material, Error>,
        refreshes: nat -> Refreshed, swaps: nat -> Result<bool, Error>, clock: nat -> int)
      ensures Valid() && log == [] && rejected == None
    {
      this.mode, this.account, this.expiryOf := mode, account, expiryOf;
      this.loads, this.refreshes, this.swaps, this.clock := loads, refreshes, swaps, clock;
      loadCount, refreshCount, swapCount, clockCount, refreshDisabled := 0, 0, 0, 0, false;
      rejected, copilotFailure, log := None, None, [];
    }

    // The host renews credentials itself from now on.
    method DisableRefresh()
      modifies this`refreshDisabled
      ensures refreshDisabled
    {
      refreshDisabled := true;
    }

    predicate AccountMatches(m: Material) {
      account.Some? ==> account == m.account
    }

    function Checked(answer: Result<Material, Error>): Result<Material, Error> {
      if answer.Ok? && !AccountMatches(answer.value) then Err(UNAVAILABLE) else answer
    }

    // Loads the current material and checks its account.
    method Load() returns (r: Result<Material, Error>)
      requires Valid()
      modifies this`loadCount, this`log
      ensures Valid()
      ensures MayLoad(old(log), log)
      ensures r.Err? && log != old(log) ==> !AccountMatches(log[|old(log)|].m)
      ensures r.Ok? ==> log == old(log) + [Loaded(r.value)] && AccountMatches(r.value)
      ensures r == Checked(loads(old(loadCount))) && loadCount == old(loadCount) + 1
      ensures log != old(log) ==> loads(old(loadCount)) == Ok(log[|old(log)|].m)
    {
      hide NeverReturnsRejected, Remembers, Disciplined;
      loadCount := loadCount + 1;
      var m :- loads(loadCount - 1);
      AskedKeeps(log, Loaded(m), rejected);
      DisciplinedMore(log, Loaded(m));
      log := log + [Loaded(m)];
      if !AccountMatches(m) {
        return Err(UNAVAILABLE);
      }
      return Ok(m);
    }

    method Now() returns (now: int)
      modifies this`clockCount
      ensures now == clock(old(clockCount)) && clockCount == old(clockCount) + 1
    {
      clockCount := clockCount + 1;
      return clock(clockCount - 1);
    }

    // Records a rejection only if the rejected token is still the current one.
    method Reject(token: string) returns (r: Result<(), Error>)
      requires Valid()
      modifies this`loadCount, this`log, this`rejected
      ensures Valid()
      ensures r.Ok? ==>
        && |log| > |old(log)| && log[|old(log)|].Loaded?
        && if Token(log[|old(log)|].m) == Trim(token)
           then rejected == Some(Trim(token)) && log == old(log) + [log[|old(log)|], RejectedToken(Trim(token))]
           else rejected == old(rejected) && log == old(log) + [log[|old(log)|]]
      ensures r.Err? ==> rejected == old(rejected)
    {
      hide NeverReturnsRejected, Remembers, Disciplined;
      var current :- Load();
      if Token(current) == Trim(token) {
        RejectKeeps(log, current, rejected);
        DisciplinedMore(log, RejectedToken(Trim(token)));
        rejected := Some(Trim(token));
        log := log + [RejectedToken(Trim(token))];
      }
      return Ok(());
    }

    // Whether a still usable token may stand in for a failed refresh.
    method Fallback(m: Material, rejectedCurrent: bool) returns (ok: bool)
      modifies this`clockCount
      ensures ok <==> StandsIn(m, rejectedCurrent, clock(old(clockCount)))
    {
      if mode !in {AnthropicOAuth, Copilot} || rejectedCurrent || Token(m) == "" {
        return false;
      }
      if m.expiresAt.None? {
        return true;
      }
      var now := Now();
      return m.expiresAt.value > now;
    }

    // Hands material just loaded to the refresher.
    method Refresh(m: Material) returns (answer: Refreshed)
      requires Valid() && LastLoad(log) == Some(m)
      modifies this`refreshCount, this`log
      ensures Valid() && log == old(log) + [Exchanged(m)]
      ensures answer == refreshes(old(refreshCount)) && refreshCount == old(refreshCount) + 1
    {
      hide NeverReturnsRejected, Remembers, Disciplined, LastLoad;
      refreshCount := refreshCount + 1;
      AskedKeeps(log, Exchanged(m), rejected);
      DisciplinedMore(log, Exchanged(m));
      log := log + [Exchanged(m)];
      return refreshes(refreshCount - 1);
    }

    // Compare-and-swap of the exchanged revision; losing it is no error.
    method Replace(revision: nat, m: Material) returns (r: Result<bool, Error>)
      requires Valid() && log != [] && log[|log| - 1].Exchanged? && log[|log| - 1].m.revision == revision
      modifies this`swapCount, this`log
      ensures Valid() && log == old(log) + [Replaced(revision, m)]
      ensures r == swaps(old(swapCount))
    {
      hide NeverReturnsRejected, Remembers, Disciplined;
      swapCount := swapCount + 1;
      AskedKeeps(log, Replaced(revision, m), rejected);
      DisciplinedMore(log, Replaced(revision, m));
      log := log + [Replaced(revision, m)];
      return swaps(swapCount - 1);
    }

    // The store was asked again after an exchange failed: is there a rotated, unexpired token?
    method Rotation(latest: Material, original: Material) returns (ok: bool)
      modifies this`clockCount
      ensures ok <==> Rotates(latest, original, clock(old(clockCount)))
      ensures clockCount == old(clockCount) + Readings(latest, original)
    {
      if Token(latest) == "" || Token(latest) == Token(original) {
        return false;
      }
      if latest.expiresAt.None? {
        return true;
      }
      var now := Now();
      return latest.expiresAt.value > now;
    }

    // What one exchange settles: a new token is whatever the store then holds, a dropped or timed-out
    // exchange fails the call, after any other failure a token rotated by others is used, or another
    // refresh token is tried (none), or a token still usable, or the failure is reported.
    function Settled(
      answer: Refreshed, swap: Result<bool, Error>, loaded: Result<Material, Error>, readings: (int, int),
      original: Material, round: Round): Option<Settlement>
    {
      var same := round.failure;
      match answer
      case Interrupted(e) => Some(Settlement(Err(e), same))
      case Fresh(m) =>
        if !AccountMatches(m) then Some(Settlement(Err(UNAVAILABLE), same))
        else if swap.Err? then Some(Settlement(Err(swap.error), same))
        else Some(Settlement(loaded, if loaded.Ok? then None else same))
      case Failed(e) =>
        if Final(e) then Some(Settlement(Err(e), same))
        else if loaded.Err? then Some(Settlement(loaded, same))
        else if Rotates(loaded.value, original, readings.0) then Some(Settlement(loaded, None))
        else if TriesAgain(e, loaded.value, original, round.retried) then None
        else
          Some(Settlement(if StandsIn(loaded.value, round.rejectedCurrent, readings.1) then loaded else Err(e),
            if mode == Copilot then Some((original.revision, round.now)) else same))
    }

    // Only another refresh token, after a refusal over HTTP, is worth a second exchange.
    predicate TriesAgain(e: Error, latest: Material, original: Material, retried: bool) {
      mode == OpenAi && !retried && e.http && HasRefresh(latest) && RefreshToken(latest) != RefreshToken(original)
    }

    // A token still usable may stand in for one that could not be had.
    predicate StandsIn(m: Material, rejectedCurrent: bool, now: int) {
      mode in {AnthropicOAuth, Copilot} && !rejectedCurrent && Token(m) != "" && Unexpired(m, now)
    }

    // One exchange with the answers from `at` on.
    function SettledAt(at: Place, original: Material, round: Round): Option<Settlement> {
      var loaded := Checked(loads(at.load));
      var later := at.clock + if loaded.Ok? then Readings(loaded.value, original) else 0;
      Settled(refreshes(at.refresh), swaps(at.swap), loaded, (clock(at.clock), clock(later)), original, round)
    }

    // The outcome of a renewal: what its first exchange settles, or else its second.
    function RenewedTo(at: Place, m: Material, round: Round): Settlement
      decreases !round.retried
    {
      match SettledAt(at, m, round)
      case Some(settled) => settled
      case None =>
        var latest := Checked(loads(at.load)).value;
        RenewedTo(Place(at.refresh + 1, at.swap, at.load + 1, at.clock + Readings(latest, m)), latest,
          round.(retried := true))
    }

    // What a call makes of the material it loaded.
    function Current(at: Place, m: Material, proactive: bool, now: int, was: Memory): Settlement {
      var rejectedCurrent := was.rejected == Some(Token(m));
      if !Due(m, mode, now, proactive, expiryOf) && !rejectedCurrent then Settlement(Ok(m), was.failure)
      else if !Possible(m, was.disabled) then
        Settlement(if rejectedCurrent then Err(UNAVAILABLE) else Ok(m), was.failure)
      else if mode == Copilot && Cooling(was.failure, m.revision, now) then
        Settlement(if StandsIn(m, rejectedCurrent, clock(at.clock)) then Ok(m) else Err(Error(Provider, false)),
          was.failure)
      else RenewedTo(at, m, Round(rejectedCurrent, now, was.failure, false))
    }

    // The answer of a call.
    function Answered(at: Place, proactive: bool, active: bool, was: Memory): Result<Material, Error> {
      var m :- Checked(loads(at.load));
      var x :- Current(at.(load := at.load + 1, clock := at.clock + 1), m, proactive, clock(at.clock), was).result;
      Handed(x, active, was.rejected)
    }

    // The last checks of a call.
    function Handed(m: Material, active: bool, rejected: Option<string>): Result<Material, Error> {
      if rejected == Some(Token(m)) || (mode != Anonymous && Token(m) == "")
        || (mode == OpenAi && (m.account.None? || Trim(m.account.value) == "")) then Err(UNAVAILABLE)
      else if !active then Err(Error(Cancelled, false))
      else Ok(m)
    }

    ghost function Here(): Place
      reads this`refreshCount, this`swapCount, this`loadCount, this`clockCount
    {
      Place(refreshCount, swapCount, loadCount, clockCount)
    }

    ghost function Remembered(): Memory
      reads this`rejected, this`refreshDisabled, this`copilotFailure
    {
      Memory(rejected, refreshDisabled, copilotFailure)
    }

    // Stores renewed material and loads what is current then, whoever won.
    method Store(
      original: Material, updated: Material, ghost was: seq<Event>, ghost start: Material)
      returns (r: Result<Material, Error>)
      requires Valid() && log != [] && log[|log| - 1] == Exchanged(original) && was <= log && Asked(log[|was|..])
      modifies this`loadCount, this`swapCount, this`copilotFailure, this`log
      ensures Valid() && was <= log && Asked(log[|was|..]) && Exchanges(log) == Exchanges(old(log))
      ensures SecondExchange(old(log)[|was|..], start) ==> SecondExchange(log[|was|..], start)
      ensures r.Ok? ==> LastLoad(log[|was|..]) == Some(r.value) && AccountMatches(r.value)
      ensures if !AccountMatches(updated) then r == Err(UNAVAILABLE)
        else if swaps(old(swapCount)).Err? then r == Err(swaps(old(swapCount)).error)
        else r == Checked(loads(old(loadCount)))
      ensures copilotFailure == if r.Ok? then None else old(copilotFailure)
    {
      hide NeverReturnsRejected, Remembers, Disciplined, LastLoad, Exchanges, Asked, SecondExchange, AccountMatches;
      if !AccountMatches(updated) {
        return Err(UNAVAILABLE);
      }
      ghost var b := log;
      LastLoadMore(b, Replaced(original.revision, updated));
      var swapped := Replace(original.revision, updated);
      AskedMore(was, b, log);
      SecondStays(log[|was|..], b[|was|..], start);
      if swapped.Err? {
        return Err(swapped.error);
      }
      ghost var c := log;
      r := Load();
      AfterLoad(was, c, log, start);
      if r.Ok? {
        copilotFailure := None;
      }
    }

    // After an exchange failed: a rotated token, another try (none), a token still usable, or the failure.
    method Recover(
      original: Material, error: Error, round: Round, ghost was: seq<Event>, ghost start: Material, ghost at: Place)
      returns (r: Option<Result<Material, Error>>, latest: Material)
      requires Valid() && was <= log && Asked(log[|was|..]) && !Final(error) && round.failure == copilotFailure
      requires Here() == at.(refresh := at.refresh + 1) && refreshes(at.refresh) == Failed(error)
      modifies this`loadCount, this`clockCount, this`copilotFailure, this`log
      ensures Valid() && was <= log && Asked(log[|was|..]) && Exchanges(log) == Exchanges(old(log))
      ensures SecondExchange(old(log)[|was|..], start) ==> SecondExchange(log[|was|..], start)
      ensures r.Some? && r.value.Ok? ==> LastLoad(log[|was|..]) == Some(r.value.value) && AccountMatches(r.value.value)
      ensures r.None? ==>
        && LastLoad(log) == Some(latest) && copilotFailure == old(copilotFailure)
        && TriesAgain(error, latest, original, round.retried)
      ensures RenewedTo(at, original, round) ==
        if r.Some? then Settlement(r.value, copilotFailure) else RenewedTo(Here(), latest, round.(retried := true))
    {
      hide NeverReturnsRejected, Remembers, Disciplined, LastLoad, Exchanges, Asked, SecondExchange, Token,
        AccountMatches, RefreshToken, HasRefresh, Rotates, Readings, StandsIn;
      latest := original;
      FailedSettles(at, original, round);
      hide RenewedTo, SettledAt;
      ghost var b := log;
      var loaded := Load();
      AfterLoad(was, b, log, start);
      if loaded.Err? {
        return Some(Err(loaded.error)), latest;
      }
      latest := loaded.value;
      LastLoadMore(b, Loaded(latest));
      var rotated := Rotation(latest, original);
      if rotated {
        copilotFailure := None;
        return Some(Ok(latest)), latest;
      }
      if mode == OpenAi && !round.retried && error.http && HasRefresh(latest)
        && RefreshToken(latest) != RefreshToken(original) {
        return None, latest;
      }
      if mode == Copilot {
        copilotFailure := Some((original.revision, round.now));
      }
      var usable := Fallback(latest, round.rejectedCurrent);
      return Some(if usable then Ok(latest) else Err(error)), latest;
    }

    // The refresh loop: at most one more exchange, for a refresh token rotated by the host meanwhile.
    method Renew(start: Material, rejectedCurrent: bool, now: int) returns (r: Result<Material, Error>)
      requires Valid() && LastLoad(log) == Some(start)
      modifies this`loadCount, this`refreshCount, this`swapCount, this`clockCount, this`copilotFailure, this`log
      ensures Valid() && old(log) <= log && Asked(log[|old(log)|..])
      ensures 1 <= Exchanges(log) - Exchanges(old(log)) <= if mode == OpenAi then 2 else 1
      ensures Exchanges(log) - Exchanges(old(log)) == 2 ==> SecondExchange(log[|old(log)|..], start)
      ensures r.Ok? ==> LastLoad(log[|old(log)|..]) == Some(r.value) && AccountMatches(r.value)
      ensures Settlement(r, copilotFailure) ==
        RenewedTo(old(Here()), start, Round(rejectedCurrent, now, old(copilotFailure), false))
    {
      hide NeverReturnsRejected, Remembers, Disciplined, LastLoad, Exchanges, Asked, SecondExchange, Token,
        AccountMatches, RefreshToken, Rotates, Readings, StandsIn, HasRefresh, TriesAgain, RenewedTo, SettledAt;
      var material, round := start, Round(rejectedCurrent, now, copilotFailure, false);
      ghost var was := log;
      ghost var target := RenewedTo(Here(), start, round);
      NothingAsked();
      assert log[|log|..] == [];
      while true
        invariant Valid() && was <= log && Asked(log[|was|..]) && LastLoad(log) == Some(material)
        invariant Exchanges(log) == Exchanges(was) + if round.retried then 1 else 0
        invariant round.retried ==> mode == OpenAi && RefreshToken(material) != RefreshToken(start)
        invariant copilotFailure == old(copilotFailure)
        invariant round == Round(rejectedCurrent, now, copilotFailure, round.retried)
        invariant !round.retried ==> material == start
        invariant RenewedTo(Here(), material, round) == target
        decreases !round.retried
      {
        var original := material;
        ghost var (a, at) := (log, Here());
        AnswerSettles(at, material, round);
        LastLoadMore(a, Exchanged(material));
        var answer := Refresh(material);
        AskedMore(was, a, log);
        if round.retried { SecondIs(log[|was|..], start); }
        match answer
        case Interrupted(e) => return Err(e);
        case Fresh(updated) =>
          r := Store(material, updated, was, start);
          return;
        case Failed(error) =>
          if Final(error) {
            return Err(error);
          }
          var outcome, latest := Recover(material, error, round, was, start, at);
          if outcome.Some? {
            return outcome.value;
          }
          AnotherToken(error, latest, original, round.retried);
          material, round := latest, round.(retried := true);
      }
    }

    // What an answer of the refresher settles at once.
    lemma AnswerSettles(at: Place, m: Material, round: Round)
      ensures match refreshes(at.refresh)
        case Interrupted(e) => RenewedTo(at, m, round) == Settlement(Err(e), round.failure)
        case Fresh(x) =>
          RenewedTo(at, m, round) ==
            if !AccountMatches(x) then Settlement(Err(UNAVAILABLE), round.failure)
            else if swaps(at.swap).Err? then Settlement(Err(swaps(at.swap).error), round.failure)
            else
              var loaded := Checked(loads(at.load));
              Settlement(loaded, if loaded.Ok? then None else round.failure)
        case Failed(e) => Final(e) ==> RenewedTo(at, m, round) == Settlement(Err(e), round.failure)
    {
      hide Rotates, StandsIn, TriesAgain, Readings, Token;
    }

    // A failure that settles nothing at once.
    lemma FailedSettles(at: Place, m: Material, round: Round)
      requires refreshes(at.refresh).Failed? && !Final(refreshes(at.refresh).e)
      ensures var (e, loaded, same) := (refreshes(at.refresh).e, Checked(loads(at.load)), round.failure);
        RenewedTo(at, m, round) ==
          if loaded.Err? then Settlement(loaded, same)
          else
            var later := at.clock + Readings(loaded.value, m);
            if Rotates(loaded.value, m, clock(at.clock)) then Settlement(loaded, None)
            else if TriesAgain(e, loaded.value, m, round.retried) then
              RenewedTo(Place(at.refresh + 1, at.swap, at.load + 1, later), loaded.value, round.(retried := true))
            else
              Settlement(if StandsIn(loaded.value, round.rejectedCurrent, clock(later)) then loaded else Err(e),
                if mode == Copilot then Some((m.revision, round.now)) else same)
    {
      hide Rotates, StandsIn, TriesAgain, Readings, Token;
    }

    lemma AnotherToken(e: Error, latest: Material, original: Material, retried: bool)
      requires TriesAgain(e, latest, original, retried)
      ensures mode == OpenAi && !retried && RefreshToken(latest) != RefreshToken(original)
    {}

    predicate Possible(m: Material, disabled: bool) {
      !disabled && mode in {OpenAi, AnthropicOAuth, Copilot} && HasRefresh(m)
    }

    // When a call exchanges: a due or rejected token, an exchange possible and not cooling down.
    predicate Exchanging(
      m: Material, now: int, proactive: bool, rejected: Option<string>, disabled: bool, failure: Option<(nat, int)>)
    {
      && (Due(m, mode, now, proactive, expiryOf) || rejected == Some(Token(m)))
      && Possible(m, disabled)
      && !(mode == Copilot && Cooling(failure, m.revision, now))
    }

    // The current material for a request, renewed where it must be.
    method Renewed(m: Material, proactive: bool, now: int) returns (r: Result<Material, Error>)
      requires Valid() && LastLoad(log) == Some(m) && log != [] && log[|log| - 1] == Loaded(m) && AccountMatches(m)
      modifies this`loadCount, this`refreshCount, this`swapCount, this`clockCount, this`copilotFailure, this`log
      ensures Valid() && old(log) <= log && Asked(log[|old(log)|..])
      ensures 0 <= Exchanges(log) - Exchanges(old(log)) <= if mode == OpenAi then 2 else 1
      ensures Exchanges(log) > Exchanges(old(log)) <==>
        Exchanging(m, now, proactive, rejected, refreshDisabled, old(copilotFailure))
      ensures Exchanges(log) - Exchanges(old(log)) == 2 ==> SecondExchange(log[|old(log)|..], m)
      ensures r.Ok? ==> AccountMatches(r.value)
      ensures r.Ok? ==> if log == old(log) then r.value == m else LastLoad(log[|old(log)|..]) == Some(r.value)
      ensures Settlement(r, copilotFailure) == Current(old(Here()), m, proactive, now, old(Remembered()))
    {
      hide NeverReturnsRejected, Remembers, Disciplined, LastLoad, Exchanges, Asked, SecondExchange, Due, Cooling,
        RenewedTo, StandsIn, Token, HasRefresh;
      NothingAsked();
      assert log[|log|..] == [];
      var rejectedCurrent := rejected == Some(Token(m));
      var needed := Due(m, mode, now, proactive, expiryOf) || rejectedCurrent;
      var possible := !refreshDisabled && mode in {OpenAi, AnthropicOAuth, Copilot} && HasRefresh(m);
      if !needed {
        return Ok(m);
      }
      if !possible {
        return if rejectedCurrent then Err(UNAVAILABLE) else Ok(m);
      }
      if mode == Copilot && Cooling(copilotFailure, m.revision, now) {
        var usable := Fallback(m, rejectedCurrent);
        return if usable then Ok(m) else Err(Error(Provider, false));
      }
      r := Renew(m, rejectedCurrent, now);
    }

    // A successful call returns what the store itself loaded last in that call.
    method MaterialWithPolicy(proactive: bool, active: bool) returns (r: Result<Material, Error>)
      requires Valid()
      modifies this`loadCount, this`refreshCount, this`swapCount, this`clockCount, this`copilotFailure, this`rejected,
        this`log
      ensures Valid() && old(log) <= log
      ensures 0 <= Exchanges(log) - Exchanges(old(log)) <= if mode == OpenAi then 2 else 1
      ensures rejected in {old(rejected), None}
      ensures r.Ok? ==>
        && |log| > |old(log)| + 1 && log[|log| - 1] == Returned(r.value)
        && LastLoad(log[|old(log)|..]) == Some(r.value)
        && old(rejected) != Some(Token(r.value)) && rejected == None
        && AccountMatches(r.value) && (mode != Anonymous ==> Token(r.value) != "")
        && (mode == OpenAi ==> r.value.account.Some? && Trim(r.value.account.value) != "")
      ensures refreshDisabled || mode in {ApiKey, Anonymous} ==> Exchanges(log) == Exchanges(old(log))
      ensures r == Answered(old(Here()), proactive, active, old(Remembered()))
      ensures |log| > |old(log)| && log[|old(log)|].Loaded? ==> loads(old(loadCount)) == Ok(log[|old(log)|].m)
      ensures |log| > |old(log)| && log[|old(log)|].Loaded? && AccountMatches(log[|old(log)|].m) ==>
        (Exchanges(log) > Exchanges(old(log)) <==>
          Exchanging(log[|old(log)|].m, clock(old(clockCount)), proactive, old(rejected), refreshDisabled,
            old(copilotFailure)))
    {
      hide NeverReturnsRejected, Remembers, Disciplined, LastLoad, Exchanges, Asked, Exchanging, Current, Token,
        AccountMatches, Trim;
      ghost var was := log;
      var loaded := Load();
      AfterOneLoad(was, log);
      if loaded.Err? {
        return Err(loaded.error);
      }
      ghost var first := log;
      var now := Now();
      var renewed := Renewed(loaded.value, proactive, now);
      assert log[|was|] == first[|was|] == Loaded(loaded.value);
      OnlyPossible(loaded.value, now, proactive, rejected, refreshDisabled, old(copilotFailure));
      if renewed.Err? {
        return Err(renewed.error);
      }
      var material := renewed.value;
      ghost var j := LastOf(was, first, log, material);
      LastLoadMore(log[|was|..], Returned(material));
      assert (log + [Returned(material)])[|was|..] == log[|was|..] + [Returned(material)];
      LastLoadMore(log, Returned(material));
      r := HandOut(material, active, j);
    }

    // Checks the material a call has ended with, and returns it.
    method HandOut(m: Material, active: bool, ghost j: nat) returns (r: Result<Material, Error>)
      requires Valid() && LoadedAt(log, j, m) && forall i :: j < i < |log| ==> !log[i].RejectedToken?
      modifies this`rejected, this`log
      ensures Valid() && log == if r.Ok? then old(log) + [Returned(m)] else old(log)
      ensures r == Handed(m, active, old(rejected)) && rejected in {old(rejected), None}
      ensures r.Ok? ==> r.value == m && rejected == None && old(rejected) != Some(Token(m))
    {
      hide NeverReturnsRejected, Remembers, Disciplined, Token;
      if rejected == Some(Token(m)) {
        return Err(UNAVAILABLE);
      }
      ClearKeeps(log, m, rejected, j);
      rejected := None;
      if mode != Anonymous && Token(m) == "" {
        return Err(UNAVAILABLE);
      }
      if mode == OpenAi && (m.account.None? || Trim(m.account.value) == "") {
        return Err(UNAVAILABLE);
      }
      if !active {
        return Err(Error(Cancelled, false));
      }
      ReturnKeeps(log, m);
      DisciplinedMore(log, Returned(m));
      log := log + [Returned(m)];
      return Ok(m);
    }

    lemma OnlyPossible(
      m: Material, now: int, proactive: bool, rejected: Option<string>, disabled: bool, failure: Option<(nat, int)>)
      ensures Exchanging(m, now, proactive, rejected, disabled, failure) ==> !disabled && mode !in {ApiKey, Anonymous}
    {}
  }

  lemma AfterOneLoad(was: seq<Event>, log: seq<Event>)
    requires MayLoad(was, log)
    ensures was <= log && Exchanges(log) == Exchanges(was)
    ensures log != was ==> LastLoad(log) == Some(log[|was|].m) && log == was + [log[|was|]]
  {
    if log != was {
      assert log == was + [log[|was|]];
      LastLoadMore(was, log[|was|]);
    }
  }

  // Where the material of a call was loaded: after everything of earlier calls, with no rejection since.
  lemma LastOf(was: seq<Event>, first: seq<Event>, log: seq<Event>, m: Material) returns (j: nat)
    requires was <= first <= log && |first| == |was| + 1 && first[|was|].Loaded? && Asked(log[|first|..])
    requires if log == first then m == first[|was|].m else LastLoad(log[|first|..]) == Some(m)
    ensures LoadedAt(log, j, m) && j >= |was| && forall i :: j < i < |log| ==> !log[i].RejectedToken?
    ensures LastLoad(log[|was|..]) == Some(m)
  {
    hide Token;
    assert log[|was|] == first[|was|];
    forall i | |first| <= i < |log| ensures !log[i].RejectedToken? {
      assert log[i] == log[|first|..][i - |first|] && log[i] in log[|first|..];
    }
    if log == first {
      j := |was|;
      assert log[|was|..] == [log[|was|]];
    } else {
      j := FindLoad(log[|first|..], m);
      j := j + |first|;
      LastLoadJoins(log[|was|..|first|], log[|first|..]);
      assert log[|was|..] == log[|was|..|first|] + log[|first|..];
    }
  }

  lemma {:induction false} FindLoad(log: seq<Event>, m: Material) returns (j: nat)
    requires LastLoad(log) == Some(m)
    ensures LoadedAt(log, j, m)
  {
    if log[|log| - 1].Loaded? {
      j := |log| - 1;
    } else {
      j := FindLoad(log[..|log| - 1], m);
    }
  }

  lemma {:induction false} LastLoadJoins(a: seq<Event>, b: seq<Event>)
    requires LastLoad(b).Some?
    ensures LastLoad(a + b) == LastLoad(b)
  {
    assert (a + b)[..|a + b| - 1] == a + b[..|b| - 1];
    if !b[|b| - 1].Loaded? {
      LastLoadJoins(a, b[..|b| - 1]);
    }
  }

  predicate Cooling(failure: Option<(nat, int)>, revision: nat, now: int) {
    failure.Some? && failure.value.0 == revision
      && (if now < failure.value.1 then 0 else now - failure.value.1) < COOLDOWN
  }

  function RefreshToken(m: Material): Option<string> {
    if m.refresh.None? then None else Some(Trim(m.refresh.value))
  }

  // At most one load happened.
  predicate MayLoad(a: seq<Event>, b: seq<Event>) {
    b == a || (|b| == |a| + 1 && a <= b && b[|a|].Loaded?)
  }

  lemma NothingAsked()
    ensures Asked([])
  {}

  // Events of the store and the refresher only.
  ghost predicate Asked(events: seq<Event>) {
    forall e <- events :: e.Loaded? || e.Exchanged? || e.Replaced?
  }

  // A further exchange used another refresh token than the first.
  ghost predicate SecondExchange(events: seq<Event>, start: Material) {
    exists k :: 0 <= k < |events| && events[k].Exchanged? && RefreshToken(events[k].m) != RefreshToken(start)
  }

  lemma AskedMore(was: seq<Event>, a: seq<Event>, b: seq<Event>)
    requires was <= a && Asked(a[|was|..]) && |b| == |a| + 1 && b[..|a|] == a && !b[|a|].RejectedToken?
    requires !b[|a|].Returned?
    ensures was <= b && Asked(b[|was|..])
  {
    assert b[|was|..] == a[|was|..] + [b[|a|]];
  }

  lemma SecondIs(events: seq<Event>, start: Material)
    requires events != [] && events[|events| - 1].Exchanged?
    requires RefreshToken(events[|events| - 1].m) != RefreshToken(start)
    ensures SecondExchange(events, start)
  {}

  lemma SecondStays(events: seq<Event>, before: seq<Event>, start: Material)
    requires before <= events
    ensures SecondExchange(before, start) ==> SecondExchange(events, start)
  {
    if SecondExchange(before, start) {
      var k :| 0 <= k < |before| && before[k].Exchanged? && RefreshToken(before[k].m) != RefreshToken(start);
      assert events[k] == before[k];
    }
  }

  // A load, successful or not, is one more event at most.
  lemma AfterLoad(was: seq<Event>, a: seq<Event>, b: seq<Event>, start: Material)
    requires was <= a && Asked(a[|was|..])
    requires MayLoad(a, b)
    ensures was <= b && Asked(b[|was|..]) && Exchanges(b) == Exchanges(a)
    ensures SecondExchange(a[|was|..], start) ==> SecondExchange(b[|was|..], start)
    ensures b != a ==> LastLoad(b[|was|..]) == Some(b[|b| - 1].m) && LastLoad(b) == Some(b[|b| - 1].m)
  {
    hide Exchanges, LastLoad;
    if b != a {
      assert b[..|a|] == a && b == a + [b[|b| - 1]];
      AskedMore(was, a, b);
      LastLoadMore(a, b[|b| - 1]);
      assert b[|was|..] == a[|was|..] + [b[|b| - 1]];
      LastLoadMore(a[|was|..], b[|b| - 1]);
      SecondStays(b[|was|..], a[|was|..], start);
    }
  }
}
