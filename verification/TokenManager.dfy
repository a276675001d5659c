/**
 The extension's token manager: one cached JWT, one timer, and a refresh that suspends while the back
 end's address is read, while the request is out, and while the new token is written to session storage.

 Steps are cut at those awaits and begin after the first load of the cache. `Enabled` excludes a login or
 a logout that takes effect while a refresh is in flight; refreshes may begin while a login is being written.
 */
module TokenManager {
  import opened Common
  import opened RetryLoop

  const REFRESH_BUFFER_SECONDS := 300
  const RETRY_BASE_MS := 30000
  const RETRY_MAX_MS := 300000

  datatype StoredToken = StoredToken(jwt: string, expiresAt: int)

  /** Where an activation of performRefresh is suspended. */
  datatype Phase = AwaitUrl | AwaitReply(jwt: string) | Persisting(expiresAt: int) | Closing

  /** `refreshing` is whether refreshInProgress is set; `running` are the activations alive. */
  datatype Client = Client(
    cached: Option<StoredToken>,
    timer: Option<int>,
    failures: nat,
    refreshing: bool,
    running: seq<Phase>,
    storing: Option<int>)

  const LOGGED_OUT := Client(None, None, 0, false, [], None)

  datatype Event =
    | Call(at: int)
    | TimerFires(at: int)
    | EnsureFresh(at: int)
    | CheckAuthenticated(at: int)
    | UrlKnown(i: nat, configured: bool, at: int)
    | Refused(i: nat, at: int)
    | Failed(i: nat, at: int)
    | Renewed(i: nat, jwt: string, expiresAt: int, at: int)
    | Persisted(i: nat, at: int)
    | Closed(i: nat, at: int)
    | Login(jwt: string, expiresAt: int, at: int)
    | LoginStored(at: int)
    | Logout(at: int)

  // ---------------------------------------------------------------- steps

  function ExpiryMs(t: StoredToken): int { t.expiresAt * 1000 }

  predicate Unexpired(t: StoredToken, now: int) { ExpiryMs(t) > now }

  function RefreshAt(expiresAt: int): int { (expiresAt - REFRESH_BUFFER_SECONDS) * 1000 }

  /** refreshToken: joins the refresh in progress, or starts one if there is a token. */
  function StartRefresh(c: Client): Client {
    if c.refreshing || c.cached.None? then c
    else c.(refreshing := true, running := c.running + [AwaitUrl])
  }

  function ScheduleRefresh(c: Client, expiresAt: int, now: int): Client {
    if RefreshAt(expiresAt) - now <= 0 then StartRefresh(c.(timer := None))
    else c.(timer := Some(RefreshAt(expiresAt)))
  }

  function Clear(c: Client): Client { c.(cached := None, timer := None) }

  /** The activation ends and the caller that started it resets refreshInProgress. */
  function End(c: Client, i: nat): Client
    requires i < |c.running|
  {
    c.(refreshing := false, running := c.running[..i] + c.running[i + 1..])
  }

  function MoveTo(c: Client, i: nat, phase: Phase): Client
    requires i < |c.running|
  {
    c.(running := c.running[i := phase])
  }

  function RetryBackoff(failures: nat): int
    requires failures >= 1
  {
    Min(RETRY_BASE_MS * Pow2(failures - 1), RETRY_MAX_MS)
  }

  function TransientFailure(c: Client, i: nat, now: int): Client
    requires i < |c.running|
  {
    if c.cached.None? || !Unexpired(c.cached.value, now) then MoveTo(Clear(c), i, Closing)
    else
      var failures := c.failures + 1;
      var delay := Max(0, Min(RetryBackoff(failures), ExpiryMs(c.cached.value) - now));
      End(c.(failures := failures, timer := Some(now + delay)), i)
  }

  predicate InPhase(c: Client, e: Event) {
    match e
    case UrlKnown(i, _, _) => i < |c.running| && c.running[i].AwaitUrl?
    case Refused(i, _) => i < |c.running| && c.running[i].AwaitReply?
    case Failed(i, _) => i < |c.running| && c.running[i].AwaitReply?
    case Renewed(i, _, _, _) => i < |c.running| && c.running[i].AwaitReply?
    case Persisted(i, _) => i < |c.running| && c.running[i].Persisting?
    case Closed(i, _) => i < |c.running| && c.running[i].Closing?
    case _ => false
  }

  predicate Enabled(c: Client, e: Event) {
    match e
    case Call(_) => true
    case EnsureFresh(_) => true
    case CheckAuthenticated(_) => true
    case TimerFires(now) => c.timer.Some? && now >= c.timer.value
    case Login(_, _, _) => !c.refreshing && c.storing.None?
    case LoginStored(_) => c.storing.Some?
    case Logout(_) => !c.refreshing
    case _ => InPhase(c, e)
  }

  function Step(c: Client, e: Event): Client
    requires Enabled(c, e)
  {
    match e
    case Call(_) => StartRefresh(c)
    case TimerFires(_) => StartRefresh(c.(timer := None))
    case EnsureFresh(now) =>
      if c.cached.Some? && now >= RefreshAt(c.cached.value.expiresAt) then StartRefresh(c) else c
    case CheckAuthenticated(now) =>
      if c.cached.Some? && !Unexpired(c.cached.value, now) then Clear(c) else c
    case UrlKnown(i, configured, now) =>
      if !configured then MoveTo(Clear(c), i, Closing)
      else if c.cached.None? then TransientFailure(c, i, now)
      else MoveTo(c, i, AwaitReply(c.cached.value.jwt))
    case Refused(i, _) => MoveTo(Clear(c), i, Closing)
    case Failed(i, now) => TransientFailure(c, i, now)
    case Renewed(i, jwt, expiresAt, _) =>
      MoveTo(c.(cached := Some(StoredToken(jwt, expiresAt)), failures := 0), i, Persisting(expiresAt))
    case Persisted(i, now) => End(ScheduleRefresh(c, c.running[i].expiresAt, now), i)
    case Closed(i, _) => End(c, i)
    case Login(jwt, expiresAt, _) =>
      c.(cached := Some(StoredToken(jwt, expiresAt)), timer := None, storing := Some(expiresAt))
    case LoginStored(now) => ScheduleRefresh(c.(storing := None), c.storing.value, now)
    case Logout(_) => Clear(c)
  }

  predicate ValidRun(c: Client, es: seq<Event>, clock: int)
    decreases |es|
  {
    es == [] || (es[0].at >= clock && Enabled(c, es[0]) && ValidRun(Step(c, es[0]), es[1..], es[0].at))
  }

  function Run(c: Client, es: seq<Event>, clock: int): Client
    requires ValidRun(c, es, clock)
    decreases |es|
  {
    if es == [] then c else Run(Step(c, es[0]), es[1..], es[0].at)
  }

  // ---------------------------------------------------------------- one refresh at a time

  predicate SingleFlight(c: Client) {
    && |c.running| <= 1
    && (c.refreshing <==> |c.running| == 1)
    && (c.running != [] && c.running[0].Closing? ==> c.cached.None?)
  }

  lemma {:induction false} FailureKeepsSingleFlight(c: Client, now: int)
    requires SingleFlight(c) && c.running != [] && !c.running[0].Closing?
    ensures SingleFlight(TransientFailure(c, 0, now))
  {}

  lemma {:induction false} ResumptionKeepsSingleFlight(c: Client, e: Event)
    requires SingleFlight(c) && InPhase(c, e)
    ensures SingleFlight(Step(c, e))
  {
    if e.Failed? || (e.UrlKnown? && e.configured) {
      FailureKeepsSingleFlight(c, e.at);
    }
  }

  lemma {:induction false} StepKeepsSingleFlight(c: Client, e: Event)
    requires SingleFlight(c) && Enabled(c, e)
    ensures SingleFlight(Step(c, e))
  {
    if InPhase(c, e) { ResumptionKeepsSingleFlight(c, e); }
  }

  /** In every run at most one refresh is alive, and refreshInProgress is set exactly while one is. */
  lemma {:induction false} OneRefreshAtATime(es: seq<Event>, clock: int, c: Client)
    requires SingleFlight(c) && ValidRun(c, es, clock)
    ensures SingleFlight(Run(c, es, clock))
    decreases |es|
  {
    if es != [] {
      StepKeepsSingleFlight(c, es[0]);
      OneRefreshAtATime(es[1..], es[0].at, Step(c, es[0]));
    }
  }

  // ---------------------------------------------------------------- what each call does

  /** Before a request: a token with 300 s or less to live is being refreshed afterwards; any other is left alone. */
  lemma {:induction false} NoStaleTokenIsUsed(c: Client, now: int)
    requires SingleFlight(c)
    ensures var d := Step(c, EnsureFresh(now));
            && d.cached == c.cached && d.timer == c.timer
            && (c.cached.Some? && c.cached.value.expiresAt * 1000 - now <= 300000 ==>
                  d.refreshing && d.running == (if c.refreshing then c.running else [AwaitUrl]))
            && (c.cached.None? || c.cached.value.expiresAt * 1000 - now > 300000 ==> d == c)
  {}

  /** Asking whether the agent is signed in drops a token that has expired, with its timer, and nothing else. */
  lemma {:induction false} ExpiredTokenIsDropped(c: Client, now: int)
    ensures var d := Step(c, CheckAuthenticated(now));
            if c.cached.Some? && now >= c.cached.value.expiresAt * 1000
            then d == c.(cached := None, timer := None) else d == c
  {}

  /** A call or a timer starts a refresh exactly when there is a token and none is under way. */
  lemma {:induction false} RefreshStarts(c: Client, e: Event)
    requires SingleFlight(c) && (e.Call? || (e.TimerFires? && c.timer.Some? && e.at >= c.timer.value))
    ensures var d := Step(c, e);
            && d.cached == c.cached && d.timer == (if e.TimerFires? then None else c.timer) && d.failures == c.failures
            && (d.refreshing <==> c.refreshing || c.cached.Some?)
            && (d.running == if !c.refreshing && c.cached.Some? then [AwaitUrl] else c.running)
  {}

  /** A login is refreshed 300 s before its token expires, or at once when that has passed; so is a renewal. */
  lemma {:induction false} LoginSchedules(c: Client, jwt: string, expiresAt: int, at: int, stored: int)
    requires SingleFlight(c) && Enabled(c, Login(jwt, expiresAt, at))
    ensures var d := Step(Step(c, Login(jwt, expiresAt, at)), LoginStored(stored));
            && d.cached == Some(StoredToken(jwt, expiresAt)) && d.storing.None?
            && (if stored < expiresAt * 1000 - 300000
                then d.timer == Some(expiresAt * 1000 - 300000) && d.running == []
                else d.timer.None? && d.running == [AwaitUrl])
  {}

  /** A refresh that succeeds presents the cached token, replaces it, forgets earlier failures and schedules the next. */
  lemma {:induction false} RefreshRenews(c: Client, sent: int, e: Event, written: int)
    requires SingleFlight(c) && c.running == [AwaitUrl] && c.cached.Some? && e.Renewed? && e.i == 0
    requires written < e.expiresAt * 1000 - 300000
    ensures var waiting := Step(c, UrlKnown(0, true, sent));
            && waiting.running == [AwaitReply(c.cached.value.jwt)] && waiting.cached == c.cached
            && Step(Step(waiting, e), Persisted(0, written))
               == c.(cached := Some(StoredToken(e.jwt, e.expiresAt)), failures := 0, refreshing := false, running := [],
                     timer := Some(e.expiresAt * 1000 - 300000))
  {
    var waiting := Step(c, UrlKnown(0, true, sent));
    assert waiting.running == [AwaitReply(c.cached.value.jwt)];
    assert Step(waiting, e).running == [Persisting(e.expiresAt)];
  }

  /** The waits between failed refreshes: half a minute, doubling, never more than five minutes. */
  lemma {:induction false} RetryWaits(failures: nat)
    requires failures >= 1
    ensures RetryBackoff(1) == 30000 && RetryBackoff(2) == 60000 && RetryBackoff(3) == 120000 && RetryBackoff(4) == 240000
    ensures failures >= 5 ==> RetryBackoff(failures) == 300000
  {
    assert Pow2(0) == 1 && Pow2(1) == 2 && Pow2(2) == 4 && Pow2(3) == 8 && Pow2(4) == 16;
    if failures > 5 {
      RetryWaits(failures - 1);
      assert Pow2(failures - 1) == 2 * Pow2(failures - 2);
    }
  }

  // ---------------------------------------------------------------- what ends a session early

  /**
   A token with validity left disappears only when the back end refuses it, the agent logs out, or no
   back end is configured; and it is replaced only by a renewal or a login.
   */
  lemma {:induction false} DroppedBeforeExpiryOnly(c: Client, e: Event)
    requires Enabled(c, e) && c.cached.Some? && Unexpired(c.cached.value, e.at)
    ensures Step(c, e).cached == None <==> e.Refused? || e.Logout? || (e.UrlKnown? && !e.configured)
    ensures Step(c, e).cached.Some? && Step(c, e).cached != c.cached ==> e.Renewed? || e.Login?
  {}

  /** The events that take an unexpired token away or put another in its place. */
  predicate EndsToken(e: Event) {
    e.Refused? || e.Logout? || (e.UrlKnown? && !e.configured) || e.Renewed? || e.Login?
  }

  /** Over a whole run: while a token is unexpired and none of those happens, it stays the cached one. */
  lemma {:induction false} TokenSurvives(c: Client, es: seq<Event>, clock: int)
    requires ValidRun(c, es, clock) && c.cached.Some?
    requires forall e | e in es :: !EndsToken(e) && Unexpired(c.cached.value, e.at)
    ensures Run(c, es, clock).cached == c.cached
    decreases |es|
  {
    if es != [] {
      assert es[0] in es;
      DroppedBeforeExpiryOnly(c, es[0]);
      TokenSurvives(Step(c, es[0]), es[1..], es[0].at);
    }
  }

  // ---------------------------------------------------------------- never left without a timer

  /** A cached token is being stored or refreshed, or a timer no later than its expiry will refresh it. */
  predicate Attended(c: Client) {
    c.cached.Some? && !c.refreshing && c.storing.None? ==>
      c.timer.Some? && c.timer.value <= ExpiryMs(c.cached.value)
  }

  /** A renewed token that is already inside its refresh buffer once it has been written, with no login to schedule it. */
  predicate RenewedTooLate(c: Client, e: Event) {
    e.Persisted? && InPhase(c, e) && c.storing.None? && e.at >= RefreshAt(c.running[e.i].expiresAt)
  }

  /** A renewal that arrives while a login is being written and expires before the login would refresh its own token. */
  predicate RenewedShorter(c: Client, e: Event) {
    e.Renewed? && c.storing.Some? && RefreshAt(c.storing.value) > e.expiresAt * 1000
  }

  /** The cached token is the renewal being written, and lives at least until a login being written would refresh it. */
  predicate PersistsCached(c: Client) {
    c.cached.Some? ==>
      && (c.running != [] && c.running[0].Persisting? ==> c.cached.value.expiresAt == c.running[0].expiresAt)
      && (c.storing.Some? ==> RefreshAt(c.storing.value) <= ExpiryMs(c.cached.value))
  }

  lemma {:induction false} FailureKeepsAttended(c: Client, now: int)
    requires SingleFlight(c) && PersistsCached(c) && c.running != [] && !c.running[0].Closing?
    ensures var d := TransientFailure(c, 0, now); Attended(d) && PersistsCached(d)
  {}

  lemma {:induction false} StepKeepsAttended(c: Client, e: Event)
    requires SingleFlight(c) && Attended(c) && PersistsCached(c) && Enabled(c, e)
    ensures PersistsCached(Step(c, e)) <==> !RenewedShorter(c, e)
    ensures !RenewedTooLate(c, e) ==> Attended(Step(c, e))
    ensures RenewedTooLate(c, e) ==>
              (Attended(Step(c, e)) <==> c.cached.None?) && Step(c, e).timer.None? && !Step(c, e).refreshing
  {
    if InPhase(c, e) && (e.Failed? || (e.UrlKnown? && e.configured)) { FailureKeepsAttended(c, e.at); }
  }

  predicate AlwaysRenewedInTime(c: Client, es: seq<Event>, clock: int)
    requires ValidRun(c, es, clock)
    decreases |es|
  {
    es == [] ||
    (!RenewedTooLate(c, es[0]) && !RenewedShorter(c, es[0]) && AlwaysRenewedInTime(Step(c, es[0]), es[1..], es[0].at))
  }

  /**
   In every run whose renewals are written before their own refresh buffer begins, and do not expire before
   a login still being written is due for refresh, a cached token never waits unattended. The step lemma
   above shows the first condition is exact, `ShorterRenewalOutwaits` that the second is needed.
   */
  lemma {:induction false} TokenStaysAttended(c: Client, es: seq<Event>, clock: int)
    requires SingleFlight(c) && Attended(c) && PersistsCached(c)
    requires ValidRun(c, es, clock) && AlwaysRenewedInTime(c, es, clock)
    ensures Attended(Run(c, es, clock))
    decreases |es|
  {
    if es != [] {
      StepKeepsSingleFlight(c, es[0]);
      StepKeepsAttended(c, es[0]);
      TokenStaysAttended(Step(c, es[0]), es[1..], es[0].at);
    }
  }

  /** A renewal overtaken by the end of a login it shortens waits for a timer set after its own expiry. */
  lemma ShorterRenewalOutwaits(c: Client, e: Event, written: int, stored: int)
    requires SingleFlight(c) && InPhase(c, e) && RenewedShorter(c, e)
    requires written < RefreshAt(e.expiresAt) && stored < RefreshAt(c.storing.value)
    ensures var d := Step(Step(Step(c, e), Persisted(0, written)), LoginStored(stored));
            d.cached == Some(StoredToken(e.jwt, e.expiresAt)) && !d.refreshing && d.storing.None? && !Attended(d)
  {
    assert Step(c, e).running == [Persisting(e.expiresAt)];
  }

  /** In particular a token granted for 300 s or less is left with no timer and no refresh. */
  lemma ShortLifetimeStrands(c: Client, jwt: string, expiresAt: int, now: int, later: int)
    requires SingleFlight(c) && c.running != [] && c.running[0].AwaitReply?
    requires expiresAt * 1000 <= now + 300000 && now <= later
    ensures var d := Step(Step(c, Renewed(0, jwt, expiresAt, now)), Persisted(0, later));
            d.cached == Some(StoredToken(jwt, expiresAt)) && d.timer.None? && !d.refreshing && d.running == []
  {
    var r := Step(c, Renewed(0, jwt, expiresAt, now));
    assert r.running == [Persisting(expiresAt)];
  }

  // ---------------------------------------------------------------- giving up

  /** One timer-driven attempt that fails in transport: the timer, the address, the failure. */
  datatype Attempt = Attempt(firedAt: int, sentAt: int, failedAt: int)

  predicate Idle(c: Client) { !c.refreshing && c.running == [] && c.storing.None? }

  function Attempted(c: Client, a: Attempt): Client
    requires Idle(c) && c.cached.Some? && c.timer.Some? && c.timer.value <= a.firedAt
  {
    var started := Step(c, TimerFires(a.firedAt));
    var sent := Step(started, UrlKnown(0, true, a.sentAt));
    var failed := Step(sent, Failed(0, a.failedAt));
    if failed.running == [] then failed else Step(failed, Closed(0, a.failedAt))
  }

  predicate AttemptsPossible(c: Client, attempts: seq<Attempt>)
    requires Idle(c)
    decreases |attempts|
  {
    attempts == [] ||
    (var a := attempts[0];
     && c.cached.Some? && c.timer.Some? && c.timer.value <= a.firedAt <= a.sentAt <= a.failedAt
     && AttemptsPossible(Attempted(c, a), attempts[1..]))
  }

  function AfterAttempts(c: Client, attempts: seq<Attempt>): Client
    requires Idle(c) && AttemptsPossible(c, attempts)
    decreases |attempts|
  {
    if attempts == [] then c else AfterAttempts(Attempted(c, attempts[0]), attempts[1..])
  }

  /** A failed attempt keeps the token and waits at least 30 s * 2^failures or until expiry, or gives up at expiry. */
  lemma {:induction false} AttemptEffect(c: Client, a: Attempt)
    requires Idle(c) && c.cached.Some? && c.timer.Some? && c.timer.value <= a.firedAt <= a.sentAt <= a.failedAt
    ensures Idle(Attempted(c, a))
    ensures var e, d := ExpiryMs(c.cached.value), Attempted(c, a);
            if a.failedAt >= e then d.cached.None? && d.timer.None?
            else
              && d.cached == c.cached && d.failures == c.failures + 1 && d.timer.Some?
              && d.timer.value == Min(a.failedAt + RetryBackoff(d.failures), e)
  {
    assert ([] + [AwaitUrl])[0 := AwaitReply(c.cached.value.jwt)] == [AwaitReply(c.cached.value.jwt)];
    BackoffPositive(c.failures + 1);
  }

  lemma {:induction false} BackoffPositive(failures: nat)
    requires failures >= 1
    ensures RetryBackoff(failures) >= RETRY_BASE_MS
    ensures failures >= 2 ==> RetryBackoff(failures) >= 60000
    ensures failures >= 3 ==> RetryBackoff(failures) >= 120000
    ensures failures >= 4 ==> RetryBackoff(failures) >= 240000
  {
    PowGrows(failures - 1);
  }

  lemma {:induction false} PowGrows(n: nat)
    ensures Pow2(n) >= 1
    ensures n >= 1 ==> Pow2(n) >= 2
    ensures n >= 2 ==> Pow2(n) >= 4
    ensures n >= 3 ==> Pow2(n) >= 8
  {
    if n > 0 { PowGrows(n - 1); }
  }

  /** How long before expiry an attempt can begin at the earliest, after so many failures. */
  function Earliest(failures: nat): int {
    match failures
    case 0 => -300000
    case 1 => -270000
    case 2 => -210000
    case 3 => -90000
    case _ => 0
  }

  lemma {:induction false} AttemptsLeft(c: Client, attempts: seq<Attempt>, made: nat)
    requires Idle(c) && AttemptsPossible(c, attempts) && c.cached.Some? && c.timer.Some?
    requires made <= 4 && c.failures >= made
    requires c.timer.value >= ExpiryMs(c.cached.value) + Earliest(made)
    ensures |attempts| <= 5 - made
    ensures AfterAttempts(c, attempts).cached.None? ==>
              attempts != [] && attempts[|attempts| - 1].failedAt >= ExpiryMs(c.cached.value)
    ensures |attempts| == 5 - made ==> AfterAttempts(c, attempts).cached.None?
    decreases |attempts|
  {
    if attempts != [] {
      var a := attempts[0];
      var d := Attempted(c, a);
      AttemptEffect(c, a);
      if d.cached.None? {
        assert attempts[1..] == [];
      } else {
        BackoffPositive(d.failures);
        AttemptsLeft(d, attempts[1..], made + 1);
      }
    }
  }

  /**
   When every timer-driven attempt from the refresh buffer on fails in transport, at most five are made,
   and the token is given up only at or after its expiry, whatever earlier failures are still counted.
   */
  lemma {:induction false} AtMostFiveAttempts(c: Client, attempts: seq<Attempt>)
    requires Idle(c) && AttemptsPossible(c, attempts) && c.cached.Some?
    requires c.timer == Some(RefreshAt(c.cached.value.expiresAt))
    ensures |attempts| <= 5
    ensures AfterAttempts(c, attempts).cached.None? ==>
              attempts != [] && attempts[|attempts| - 1].failedAt >= ExpiryMs(c.cached.value)
    ensures |attempts| == 5 ==> AfterAttempts(c, attempts).cached.None?
  {
    AttemptsLeft(c, attempts, 0);
  }

  // ---------------------------------------------------------------- the module's variables

  class Manager {
    var cached: Option<StoredToken>
    var refreshTimer: Option<int>
    var refreshFailures: nat
    var refreshInProgress: bool
    /** Activations of performRefresh, and of storeToken, that are waiting at an await. */
    var running: seq<Phase>
    var storing: Option<int>

    constructor ()
      ensures View() == LOGGED_OUT
    {
      cached, refreshTimer, refreshFailures := None, None, 0;
      refreshInProgress, running, storing := false, [], None;
    }

    ghost function View(): Client
      reads this
    {
      Client(cached, refreshTimer, refreshFailures, refreshInProgress, running, storing)
    }

    method RefreshToken()
      modifies this
      ensures View() == StartRefresh(old(View()))
    {
      if refreshInProgress {
        return;
      }
      if cached.Some? {
        refreshInProgress := true;
        running := running + [AwaitUrl];
      }
    }

    method TimerFires()
      modifies this
      ensures View() == StartRefresh(old(View()).(timer := None))
    {
      refreshTimer := None;
      RefreshToken();
    }

    method EnsureFreshToken(now: int)
      modifies this
      ensures View() == Step(old(View()), EnsureFresh(now))
    {
      if cached.None? {
        return;
      }
      var refreshAtMs := (cached.value.expiresAt - REFRESH_BUFFER_SECONDS) * 1000;
      if now >= refreshAtMs {
        RefreshToken();
      }
    }

    method IsAuthenticated(now: int) returns (yes: bool)
      modifies this
      ensures View() == Step(old(View()), CheckAuthenticated(now))
      ensures yes <==> cached.Some? && Unexpired(cached.value, now)
    {
      if cached.None? {
        return false;
      }
      if cached.value.expiresAt * 1000 <= now {
        ClearToken();
        return false;
      }
      yes := true;
    }

    method ClearToken()
      modifies this
      ensures View() == Clear(old(View()))
    {
      refreshTimer := None;
      cached := None;
    }

    method ScheduleRefreshAt(expiresAt: int, now: int)
      modifies this
      ensures View() == ScheduleRefresh(old(View()), expiresAt, now)
    {
      refreshTimer := None;
      var refreshAtMs := (expiresAt - REFRESH_BUFFER_SECONDS) * 1000;
      var delayMs := refreshAtMs - now;
      if delayMs <= 0 {
        RefreshToken();
        return;
      }
      refreshTimer := Some(now + delayMs);
    }

    method StoreToken(jwt: string, expiresAt: int)
      requires Enabled(View(), Login(jwt, expiresAt, 0))
      modifies this
      ensures View() == Step(old(View()), Login(jwt, expiresAt, 0))
    {
      refreshTimer := None;
      cached := Some(StoredToken(jwt, expiresAt));
      storing := Some(expiresAt);
    }

    method StoreTokenWritten(now: int)
      requires storing.Some?
      modifies this
      ensures View() == Step(old(View()), LoginStored(now))
    {
      var expiresAt := storing.value;
      storing := None;
      ScheduleRefreshAt(expiresAt, now);
    }

    method HandleTransientRefreshFailure(i: nat, now: int)
      requires i < |running|
      modifies this
      ensures View() == TransientFailure(old(View()), i, now)
    {
      var stillValid := cached.Some? && cached.value.expiresAt * 1000 > now;
      if !stillValid {
        ClearToken();
        running := running[i := Closing];
        return;
      }
      refreshFailures := refreshFailures + 1;
      var backoffMs := Min(RETRY_BASE_MS * Pow2(refreshFailures - 1), RETRY_MAX_MS);
      var msUntilExpiry := cached.value.expiresAt * 1000 - now;
      var delayMs := Max(0, Min(backoffMs, msUntilExpiry));
      refreshTimer := Some(now + delayMs);
      Leave(i);
    }

    method Leave(i: nat)
      requires i < |running|
      modifies this
      ensures View() == End(old(View()), i)
    {
      running := running[..i] + running[i + 1..];
      refreshInProgress := false;
    }

    method BackendUrlKnown(i: nat, configured: bool, now: int)
      requires i < |running| && running[i].AwaitUrl?
      modifies this
      ensures View() == Step(old(View()), UrlKnown(i, configured, now))
    {
      if !configured {
        ClearToken();
        running := running[i := Closing];
        return;
      }
      if cached.None? {
        HandleTransientRefreshFailure(i, now);
        return;
      }
      running := running[i := AwaitReply(cached.value.jwt)];
    }

    /** The reply to the refresh request; `data` is the body of a success. */
    method ReplyArrives(i: nat, status: int, data: Option<StoredToken>, now: int)
      requires i < |running| && running[i].AwaitReply?
      modifies this
      ensures status in {401, 403} ==> View() == Step(old(View()), Refused(i, now))
      ensures status !in {401, 403} && (!(200 <= status < 300) || data.None?) ==> View() == Step(old(View()), Failed(i, now))
      ensures status !in {401, 403} && 200 <= status < 300 && data.Some? ==>
                View() == Step(old(View()), Renewed(i, data.value.jwt, data.value.expiresAt, now))
    {
      if status == 401 || status == 403 {
        ClearToken();
        running := running[i := Closing];
        return;
      }
      if !(200 <= status < 300) || data.None? {
        HandleTransientRefreshFailure(i, now);
        return;
      }
      refreshFailures := 0;
      cached := Some(StoredToken(data.value.jwt, data.value.expiresAt));
      running := running[i := Persisting(data.value.expiresAt)];
    }

    method RenewalWritten(i: nat, now: int)
      requires i < |running| && running[i].Persisting?
      modifies this
      ensures View() == Step(old(View()), Persisted(i, now))
    {
      ScheduleRefreshAt(running[i].expiresAt, now);
      Leave(i);
    }
  }
}
