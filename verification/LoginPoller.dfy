/**
 The extension's login poll: every two seconds until the session is ready, the state is gone, the window
 has been closed and one more try was made, or five minutes have passed.

 The environment is a sequence of rounds: how long each sleep and fetch really took and how it ended.
 */
module LoginPoller {
  import opened Common
  import opened RateLimiter

  const POLL_INTERVAL_MS := 2000
  const POLL_TIMEOUT_MS := 300000
  const FETCH_TIMEOUT_MS := 5000

  datatype Session = Session(jwt: string, expiresAt: int, memberId: string, domain: string)

  /** NotYet is everything the loop retries: still pending, another status, an incomplete body, no answer. */
  datatype Outcome = NotFound | Ready(session: Session) | NotYet

  datatype Round = Round(sleptMs: nat, fetchMs: nat, outcome: Outcome)

  /** When round i begins, on an unbroken sequence of rounds. */
  function BeginsAt(start: int, rounds: nat -> Round, i: nat): int {
    if i == 0 then start else BeginsAt(start, rounds, i - 1) + rounds(i - 1).sleptMs + rounds(i - 1).fetchMs
  }

  function SentAt(start: int, rounds: nat -> Round, i: nat): int {
    BeginsAt(start, rounds, i) + rounds(i).sleptMs
  }

  predicate ClosedBy(closedAt: Option<int>, now: int) { closedAt.Some? && closedAt.value <= now }

  ghost predicate TimersNotEarly(rounds: nat -> Round) {
    forall i: nat :: rounds(i).sleptMs >= POLL_INTERVAL_MS
  }

  lemma {:induction false} RoundsTakeTime(start: int, rounds: nat -> Round, i: nat)
    requires TimersNotEarly(rounds)
    ensures BeginsAt(start, rounds, i) >= start + POLL_INTERVAL_MS * i
  {
    if i > 0 { RoundsTakeTime(start, rounds, i - 1); }
  }

  /** pollForSession. `polls` records when each request was sent. */
  method PollForSession(configured: bool, start: int, rounds: nat -> Round, closedAt: Option<int>)
    returns (result: Option<Session>, polls: seq<int>)
    requires TimersNotEarly(rounds)
    ensures !configured ==> result.None? && polls == []
    ensures configured ==> polls != []
    // Every poll is sent where the rounds put it, so polls are at least the interval apart.
    ensures forall i | 0 <= i < |polls| :: polls[i] == SentAt(start, rounds, i)
    ensures |polls| <= 150
    // At most two polls are sent once the window has closed.
    ensures forall i | 0 <= i < |polls| - 2 :: !ClosedBy(closedAt, polls[i])
    // Only the last outcome decides, and a session is returned exactly when that outcome is one.
    ensures forall i | 0 <= i < |polls| - 1 :: rounds(i).outcome.NotYet?
    ensures result == if polls != [] && rounds(|polls| - 1).outcome.Ready?
                      then Some(rounds(|polls| - 1).outcome.session) else None
    // An undecided poll stops only at the deadline or one attempt after a close was noticed.
    ensures configured && rounds(|polls| - 1).outcome.NotYet? ==>
              BeginsAt(start, rounds, |polls|) >= start + POLL_TIMEOUT_MS ||
              (|polls| >= 2 && ClosedBy(closedAt, BeginsAt(start, rounds, |polls| - 1)))
  {
    result, polls := None, [];
    if !configured {
      return;
    }
    var deadline := start + POLL_TIMEOUT_MS;
    var lastAttempt := false;
    var now := start;
    while now < deadline
      invariant now == BeginsAt(start, rounds, |polls|)
      invariant result.None? && (polls == [] ==> now < deadline && !lastAttempt)
      invariant |polls| <= 150
      invariant forall i | 0 <= i < |polls| :: polls[i] == SentAt(start, rounds, i)
      invariant forall i | 0 <= i < |polls| :: rounds(i).outcome.NotYet?
      invariant forall i | 0 <= i < |polls| - 1 :: !ClosedBy(closedAt, polls[i])
      invariant polls != [] ==> polls[|polls| - 1] <= now && (lastAttempt <==> ClosedBy(closedAt, now))
      decreases deadline - now
    {
      var round := rounds(|polls|);
      RoundsTakeTime(start, rounds, |polls|);
      now := now + round.sleptMs;
      polls := polls + [now];
      now := now + round.fetchMs;
      if round.outcome.NotFound? {
        return None, polls;
      }
      if round.outcome.Ready? {
        return Some(round.outcome.session), polls;
      }
      if lastAttempt {
        return None, polls;
      }
      if ClosedBy(closedAt, now) {
        lastAttempt := true;
      }
    }
  }

  // ---------------------------------------------------------------- the poll limiter

  const POLL_BUDGET := Budget(60, 60000)

  /** Arrivals of polls sent at least the interval apart, each within the fetch timeout of its sending. */
  ghost predicate ArrivalsOf(sent: seq<int>, arrived: seq<int>) {
    && |arrived| == |sent|
    && (forall i, j | 0 <= i < j < |sent| :: sent[j] - sent[i] >= POLL_INTERVAL_MS * (j - i))
    && (forall i | 0 <= i < |sent| :: sent[i] <= arrived[i] <= sent[i] + FETCH_TIMEOUT_MS)
  }

  lemma {:induction false} NeverRefusedFrom(sent: seq<int>, arrived: seq<int>, e: WindowEntry, first: nat, next: nat)
    requires ArrivalsOf(sent, arrived) && first < next <= |sent|
    requires e.windowStart == arrived[first] && e.count == next - first && e.windowMs == 60000
    ensures forall v | v in Solo(Some(e), POLL_BUDGET, arrived[next..]) :: v == Admitted
    decreases |sent| - next
  {
    if next < |sent| {
      var e' := Counted(Some(e), POLL_BUDGET, arrived[next]);
      assert arrived[next..][1..] == arrived[next + 1..];
      if arrived[next] - e.windowStart >= 60000 {
        NeverRefusedFrom(sent, arrived, e', next, next + 1);
      } else {
        assert POLL_INTERVAL_MS * (next - first) <= sent[next] - sent[first] < 65000;
        NeverRefusedFrom(sent, arrived, e', first, next + 1);
      }
    }
  }

  lemma {:induction false} PollerAloneNeverRefused(sent: seq<int>, arrived: seq<int>)
    requires ArrivalsOf(sent, arrived)
    ensures forall v | v in Solo(None, POLL_BUDGET, arrived) :: v == Admitted
  {
    if arrived != [] {
      NeverRefusedFrom(sent, arrived, Counted(None, POLL_BUDGET, arrived[0]), 0, 1);
    }
  }

  lemma {:induction false} SendsAreSpaced(start: int, rounds: nat -> Round, i: nat, j: nat)
    requires TimersNotEarly(rounds) && i < j
    ensures SentAt(start, rounds, j) - SentAt(start, rounds, i) >= POLL_INTERVAL_MS * (j - i)
    decreases j
  {
    if i < j - 1 { SendsAreSpaced(start, rounds, i, j - 1); }
  }

  /** One run of the poll: when it began, its rounds, and how many polls it sent. */
  datatype Login = Login(start: int, rounds: nat -> Round, polls: nat)

  function PollsOf(l: Login): seq<int> { seq(l.polls, i requires 0 <= i => SentAt(l.start, l.rounds, i)) }

  function Sends(logins: seq<Login>): seq<int> {
    if logins == [] then [] else PollsOf(logins[0]) + Sends(logins[1..])
  }

  /** Logins of one client: each begins after the one before has ended. */
  ghost predicate OneAfterAnother(logins: seq<Login>, from: int)
    decreases |logins|
  {
    logins == [] ||
    (var l := logins[0];
     l.start >= from && TimersNotEarly(l.rounds) && OneAfterAnother(logins[1..], BeginsAt(l.start, l.rounds, l.polls)))
  }

  lemma {:induction false} EndsAfterSends(l: Login, i: nat)
    requires TimersNotEarly(l.rounds) && i < l.polls
    ensures l.start + POLL_INTERVAL_MS * (i + 1) <= SentAt(l.start, l.rounds, i)
    ensures SentAt(l.start, l.rounds, i) + POLL_INTERVAL_MS * (l.polls - 1 - i) <= BeginsAt(l.start, l.rounds, l.polls)
  {
    RoundsTakeTime(l.start, l.rounds, i);
    if i < l.polls - 1 { SendsAreSpaced(l.start, l.rounds, i, l.polls - 1); }
  }

  lemma {:induction false} LoginsAreSpaced(logins: seq<Login>, from: int)
    requires OneAfterAnother(logins, from)
    ensures forall i | 0 <= i < |Sends(logins)| :: Sends(logins)[i] >= from + POLL_INTERVAL_MS * (i + 1)
    ensures forall i, j | 0 <= i < j < |Sends(logins)| ::
              Sends(logins)[j] - Sends(logins)[i] >= POLL_INTERVAL_MS * (j - i)
    decreases |logins|
  {
    if logins != [] {
      var l, n, rest := logins[0], logins[0].polls, Sends(logins[1..]);
      var ended := BeginsAt(l.start, l.rounds, n);
      LoginsAreSpaced(logins[1..], ended);
      RoundsTakeTime(l.start, l.rounds, n);
      forall i | 0 <= i < n + |rest| ensures Sends(logins)[i] >= from + POLL_INTERVAL_MS * (i + 1) {
        if i < n { EndsAfterSends(l, i); }
      }
      forall i, j | 0 <= i < j < n + |rest|
        ensures Sends(logins)[j] - Sends(logins)[i] >= POLL_INTERVAL_MS * (j - i)
      {
        if j < n {
          SendsAreSpaced(l.start, l.rounds, i, j);
        } else if i < n {
          EndsAfterSends(l, i);
          assert rest[j - n] >= ended + POLL_INTERVAL_MS * (j - n + 1);
        } else {
          assert rest[j - n] - rest[i - n] >= POLL_INTERVAL_MS * (j - i);
        }
      }
    }
  }

  /**
   A client alone on its address is never refused: in any trace of the back end's limiters, whatever other
   keys and sweeps it contains, the polls of all its logins, one after another, are admitted.
   */
  lemma {:induction false} LoginPollsAreAdmitted(logins: seq<Login>, from: int, es: seq<Event>, ip: string, clock: int)
    requires OneAfterAnother(logins, from)
    requires Chronological(es, clock)
    requires Budgeted(es, k => k == IpKey("poll", ip), k => POLL_BUDGET)
    requires var sent, arrived := Sends(logins), Times(Keep(es, k => k == IpKey("poll", ip)));
             |arrived| == |sent| && forall i | 0 <= i < |sent| :: sent[i] <= arrived[i] <= sent[i] + FETCH_TIMEOUT_MS
    ensures var verdicts := Verdicts(map[], es, k => k == IpKey("poll", ip));
            forall i | 0 <= i < |verdicts| :: verdicts[i] == Admitted
  {
    var key := IpKey("poll", ip);
    var arrived := Times(Keep(es, k => k == key));
    OneKeyOfManyIsSolo(es, key, POLL_BUDGET, clock);
    LoginsAreSpaced(logins, from);
    PollerAloneNeverRefused(Sends(logins), arrived);
    var verdicts := Solo(None, POLL_BUDGET, arrived);
    assert forall i | 0 <= i < |verdicts| :: verdicts[i] in verdicts;
  }
}
