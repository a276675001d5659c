/**
 One Bitrix24 REST call with its retries: four attempts, exponential backoff after a 503 or a
 transport failure, and a token refresh after a 401 that costs an attempt but no delay.

 What the far end answers is an oracle: one outcome per attempt, chosen freely.
 */
module RetryLoop {
  import opened Common

  const MAX_RETRIES := 3
  const BASE_DELAY_MS := 1000
  const MAX_BACKOFF_MS := 30000
  const QUERY_LIMIT := "Bitrix24 QUERY_LIMIT_EXCEEDED"

  /** What a call can throw: a BitrixApiError, any other Error, or something that is no Error at all. */
  datatype Failure = ApiError(message: string) | OtherError(message: string) | NonError(text: string)

  /** How executeRequest can end. */
  datatype Outcome =
    | Data(body: string)
    | Refreshed(token: string)
    | NoData
    | Raised(failure: Failure)

  predicate IsTransportError(f: Failure) { f.OtherError? }

  /** Math.pow with the backoff factor of two. */
  function Pow2(exponent: nat): nat {
    if exponent == 0 then 1 else 2 * Pow2(exponent - 1)
  }

  function BackoffFor(attempt: nat): nat {
    Min(BASE_DELAY_MS * Pow2(attempt), MAX_BACKOFF_MS)
  }

  /** The wait doubles with every attempt until it meets the cap, and stays there. */
  lemma {:induction false} BackoffDoublesToTheCap(attempt: nat)
    ensures 1000 <= BackoffFor(attempt) <= 30000
    ensures attempt <= 4 ==> BackoffFor(attempt + 1) == Min(2 * BackoffFor(attempt), 30000)
    ensures BackoffFor(attempt) == 30000 <==> attempt >= 5
  {
    assert Pow2(0) == 1 && Pow2(1) == 2 && Pow2(2) == 4 && Pow2(3) == 8 && Pow2(4) == 16 && Pow2(5) == 32;
    if attempt > 5 {
      BackoffDoublesToTheCap(attempt - 1);
      assert Pow2(attempt) == 2 * Pow2(attempt - 1);
    }
  }

  // ---------------------------------------------------------------- reference definition

  /** A refresh hands over a token; an empty one is falsy and reads as "no data". */
  predicate GivesToken(o: Outcome) { o.Refreshed? && o.token != "" }

  /** Outcomes that end the call whatever attempts are left. */
  predicate Decisive(o: Outcome) {
    match o
    case Data(_) => true
    case Raised(ApiError(_)) => true
    case Raised(NonError(_)) => true
    case _ => false
  }

  /** The error an attempt leaves behind when it neither ends the call nor yields a token. */
  function FailureOf(o: Outcome): Failure {
    if o.Raised? then o.failure else ApiError(QUERY_LIMIT)
  }

  /** The latest failure among the first n attempts that was not a 401, or the generic one when all were 401s. */
  function LatestFailure(os: seq<Outcome>, n: nat, generic: Failure): Failure
    requires n <= |os|
  {
    if n == 0 then generic
    else if GivesToken(os[n - 1]) then LatestFailure(os, n - 1, generic)
    else FailureOf(os[n - 1])
  }

  lemma {:induction false} LatestFailureMeaning(os: seq<Outcome>, n: nat, generic: Failure, k: nat)
    requires n <= |os| && k <= n && (forall i | k <= i < n :: GivesToken(os[i]))
    requires k > 0 ==> !GivesToken(os[k - 1])
    ensures LatestFailure(os, n, generic)
         == if k == 0 then generic
            else if os[k - 1].Raised? then os[k - 1].failure
            else ApiError("Bitrix24 QUERY_LIMIT_EXCEEDED")
  {
    if n > k { LatestFailureMeaning(os, n - 1, generic, k); }
  }

  /** The most recently refreshed token among the first n attempts, or the caller's own. */
  function NewestToken(os: seq<Outcome>, n: nat, token: string): string
    requires n <= |os|
  {
    if n == 0 then token
    else if GivesToken(os[n - 1]) then os[n - 1].token
    else NewestToken(os, n - 1, token)
  }

  lemma {:induction false} NewestTokenMeaning(os: seq<Outcome>, n: nat, token: string, k: nat)
    requires n <= |os| && k <= n && (forall i | k <= i < n :: !GivesToken(os[i]))
    requires k > 0 ==> GivesToken(os[k - 1])
    ensures NewestToken(os, n, token) == if k == 0 then token else os[k - 1].token
  {
    if n > k { NewestTokenMeaning(os, n - 1, token, k); }
  }

  /** Each attempt carries the token the attempt before it brought, or else the one that attempt carried. */
  lemma {:induction false} TokenByOutcome(os: seq<Outcome>, n: nat, token: string)
    requires n < |os|
    ensures NewestToken(os, 0, token) == token
    ensures NewestToken(os, n + 1, token)
         == match os[n]
            case Refreshed(fresh') => if fresh' != "" then fresh' else NewestToken(os, n, token)
            case _ => NewestToken(os, n, token)
  {}

  /** The backoffs owed for the first n attempts: one for each that failed without a new token. */
  function Backoffs(os: seq<Outcome>, n: nat): seq<nat>
    requires n <= |os|
  {
    if n == 0 then []
    else if GivesToken(os[n - 1]) || Decisive(os[n - 1]) then Backoffs(os, n - 1)
    else Backoffs(os, n - 1) + [BackoffFor(n - 1)]
  }

  /** Which outcomes cost a wait and which cost none, and the waits a call can serve. */
  lemma {:induction false} WaitsByOutcome(os: seq<Outcome>, n: nat)
    requires n < |os|
    ensures Backoffs(os, n + 1) == Backoffs(os, n) +
              (match os[n]
               case NoData => [BackoffFor(n)]
               case Raised(OtherError(_)) => [BackoffFor(n)]
               case Refreshed(token) => if token == "" then [BackoffFor(n)] else []
               case _ => [])
    ensures BackoffFor(0) == 1000 && BackoffFor(1) == 2000 && BackoffFor(2) == 4000
  {
    assert Pow2(0) == 1 && Pow2(1) == 2 && Pow2(2) == 4;
    assert Backoffs(os, n) + [] == Backoffs(os, n);
  }

  /** A first attempt that has to wait waits one second, whatever follows. */
  lemma {:induction false} FirstWait(os: seq<Outcome>, n: nat)
    requires 1 <= n <= |os|
    ensures os[0].NoData? || (os[0].Raised? && os[0].failure.OtherError?) ==>
              Backoffs(os, n) != [] && Backoffs(os, n)[0] == 1000
  {
    if n == 1 { WaitsByOutcome(os, 0); } else { FirstWait(os, n - 1); }
  }

  /** The sum of the first n. */
  function Sum(ds: seq<nat>, n: nat): nat
    requires n <= |ds|
  {
    if n == 0 then 0 else Sum(ds, n - 1) + ds[n - 1]
  }

  lemma {:induction false} SumOfPrefix(ds: seq<nat>, x: nat, n: nat)
    requires n <= |ds|
    ensures Sum(ds + [x], n) == Sum(ds, n)
  {
    if n > 0 { SumOfPrefix(ds, x, n - 1); }
  }

  /** Backoff after attempt i is at most 1000 * 2^i ms, so n attempts cost at most 1000 * (2^n - 1) ms. */
  lemma {:induction false} BackoffTotal(os: seq<Outcome>, n: nat)
    requires n <= |os|
    ensures Sum(Backoffs(os, n), |Backoffs(os, n)|) <= 1000 * (Pow2(n) - 1)
  {
    if n > 0 {
      BackoffTotal(os, n - 1);
      var earlier := Backoffs(os, n - 1);
      SumOfPrefix(earlier, BackoffFor(n - 1), |earlier|);
    }
  }

  /** One call can sleep for seven seconds and no longer. */
  lemma {:induction false} DelaysBounded(os: seq<Outcome>, n: nat, delays: seq<nat>)
    requires n <= |os| && n <= MAX_RETRIES && delays == Backoffs(os, n)
    ensures Sum(delays, |delays|) <= 7000
  {
    BackoffTotal(os, n);
    assert Pow2(0) == 1 && Pow2(1) == 2 && Pow2(2) == 4 && Pow2(3) == 8;
  }

  /** Where the call stops: the first decisive outcome, or the last attempt allowed. */
  ghost predicate StopsAfter(os: seq<Outcome>, attempts: nat)
    requires |os| == MAX_RETRIES + 1
  {
    && 1 <= attempts <= MAX_RETRIES + 1
    && (forall i | 0 <= i < attempts - 1 :: !Decisive(os[i]))
    && (attempts < MAX_RETRIES + 1 ==> Decisive(os[attempts - 1]))
  }

  // ---------------------------------------------------------------- the loop

  /**
   callBitrixApiDirect. `tokens` and `delays` record what was sent and how long the loop slept.
   */
  method CallBitrixApiDirect(accessToken: string, generic: Failure, outcomes: seq<Outcome>)
    returns (result: Result<string, Failure>, tokens: seq<string>, delays: seq<nat>)
    requires |outcomes| == MAX_RETRIES + 1
    ensures StopsAfter(outcomes, |tokens|)
    ensures !Decisive(outcomes[|tokens| - 1]) ==>
              |tokens| == 4 && result == Err(LatestFailure(outcomes, 4, generic))
    ensures forall i | 0 <= i < |tokens| :: tokens[i] == NewestToken(outcomes, i, accessToken)
    ensures delays == Backoffs(outcomes, Min(|tokens|, MAX_RETRIES))
    ensures Sum(delays, |delays|) <= 7000
    // Only a refresh, a 503 or a transport failure is tried again; anything else ends the call at once.
    ensures forall i | 0 <= i < |tokens| - 1 ::
              outcomes[i].Refreshed? || outcomes[i].NoData? || (outcomes[i].Raised? && outcomes[i].failure.OtherError?)
    ensures |tokens| <= 3 ==>
              var last := outcomes[|tokens| - 1];
              last.Data? || (last.Raised? && (last.failure.ApiError? || last.failure.NonError?))
    ensures outcomes[0].NoData? || (outcomes[0].Raised? && outcomes[0].failure.OtherError?) ==>
              |tokens| >= 2 && delays != [] && delays[0] == 1000
    // What the last attempt brought is what the caller gets.
    ensures outcomes[|tokens| - 1].Data? ==> result == Ok(outcomes[|tokens| - 1].body)
    ensures outcomes[|tokens| - 1].Raised? ==> result == Err(outcomes[|tokens| - 1].failure)
    ensures outcomes[|tokens| - 1].NoData? ==> result == Err(ApiError("Bitrix24 QUERY_LIMIT_EXCEEDED"))
  {
    FirstWait(outcomes, 1);
    FirstWait(outcomes, 2);
    FirstWait(outcomes, 3);
    var currentToken, lastError := accessToken, None;
    tokens, delays := [], [];
    var attempt := 0;
    while attempt <= MAX_RETRIES
      invariant 0 <= attempt <= MAX_RETRIES + 1
      invariant |tokens| == attempt
      invariant forall i | 0 <= i < attempt :: !Decisive(outcomes[i])
      invariant forall i | 0 <= i < attempt :: tokens[i] == NewestToken(outcomes, i, accessToken)
      invariant currentToken == NewestToken(outcomes, attempt, accessToken)
      invariant (if lastError.Some? then lastError.value else generic) == LatestFailure(outcomes, attempt, generic)
      invariant delays == Backoffs(outcomes, Min(attempt, MAX_RETRIES))
    {
      var isFinalAttempt := attempt == MAX_RETRIES;
      var outcome := outcomes[attempt];
      tokens := tokens + [currentToken];
      if outcome.Raised? {
        if !IsTransportError(outcome.failure) || isFinalAttempt {
          DelaysBounded(outcomes, Min(attempt, MAX_RETRIES), delays);
          return Err(outcome.failure), tokens, delays;
        }
        lastError := Some(outcome.failure);
        delays := delays + [BackoffFor(attempt)];
      } else if outcome.Refreshed? && outcome.token != "" {
        currentToken := outcome.token;
      } else if outcome.Data? {
        DelaysBounded(outcomes, attempt, delays);
        return Ok(outcome.body), tokens, delays;
      } else {
        lastError := Some(ApiError(QUERY_LIMIT));
        if isFinalAttempt {
          attempt := attempt + 1;
          break;
        }
        delays := delays + [BackoffFor(attempt)];
      }
      attempt := attempt + 1;
    }
    DelaysBounded(outcomes, 3, delays);
    result := Err(if lastError.Some? then lastError.value else generic);
  }
}
