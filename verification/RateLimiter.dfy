/**
 Fixed-window rate limiting over two shared maps, one keyed by agent and one by
 prefixed client address, with a background sweep of finished windows.

 `Step` and `Verdicts` are the specification: a trace of requests and sweeps over
 one map. The class at the end performs the updates in place and is proved against it.
 */
module RateLimiter {
  import opened Common

  datatype Budget = Budget(maxRequests: nat, windowMs: nat)

  datatype WindowEntry = WindowEntry(count: nat, windowStart: int, windowMs: nat)

  datatype Verdict = Admitted | Refused(retryAfterSeconds: int)

  datatype Event =
    | Request(key: string, budget: Budget, at: int)
    | Sweep(at: int)

  type Windows = map<string, WindowEntry>

  // ---------------------------------------------------------------- one request

  /** The entry a request is judged by: a fresh window when there is none or it is over. */
  function Counted(entry: Option<WindowEntry>, b: Budget, now: int): WindowEntry {
    var current :=
      if entry.None? || now - entry.value.windowStart >= b.windowMs
      then WindowEntry(0, now, b.windowMs)
      else entry.value;
    current.(count := current.count + 1)
  }

  function Judge(e: WindowEntry, b: Budget, now: int): Verdict {
    if e.count > b.maxRequests
    then Refused(CeilDiv(b.windowMs - (now - e.windowStart), 1000))
    else Admitted
  }

  predicate Finished(e: WindowEntry, now: int) {
    now - e.windowStart > e.windowMs
  }

  function Pruned(ws: Windows, now: int): (left: Windows)
    ensures forall k :: k in left <==> k in ws && now - ws[k].windowStart <= ws[k].windowMs
    ensures forall k | k in left :: left[k] == ws[k]
  {
    map k | k in ws && !Finished(ws[k], now) :: ws[k]
  }

  // ---------------------------------------------------------------- traces

  function Step(ws: Windows, e: Event): Windows {
    match e
    case Request(key, b, now) => ws[key := Counted(Lookup(ws, key), b, now)]
    case Sweep(now) => Pruned(ws, now)
  }

  /** The answers given to the requests whose key is in `mine`, in trace order. */
  function Verdicts(ws: Windows, es: seq<Event>, mine: string -> bool): seq<Verdict>
    decreases |es|
  {
    if es == [] then []
    else
      var next := Step(ws, es[0]);
      var rest := Verdicts(next, es[1..], mine);
      if es[0].Request? && mine(es[0].key)
      then [Judge(next[es[0].key], es[0].budget, es[0].at)] + rest
      else rest
  }

  /** The trace with every sweep and every request of somebody else removed. */
  function Keep(es: seq<Event>, mine: string -> bool): seq<Event> {
    if es == [] then []
    else if es[0].Request? && mine(es[0].key) then [es[0]] + Keep(es[1..], mine)
    else Keep(es[1..], mine)
  }

  function Times(es: seq<Event>): seq<int> {
    if es == [] then [] else [es[0].at] + Times(es[1..])
  }

  predicate Chronological(es: seq<Event>, from: int) {
    es == [] || (es[0].at >= from && Chronological(es[1..], es[0].at))
  }

  ghost predicate Budgeted(es: seq<Event>, mine: string -> bool, budgetOf: string -> Budget) {
    forall e | e in es && e.Request? && mine(e.key) :: e.budget == budgetOf(e.key)
  }

  // ---------------------------------------------------------------- isolation

  /** What the swept shared map may differ by from an unswept private one: finished windows. */
  ghost predicate Agrees(shared: Option<WindowEntry>, alone: Option<WindowEntry>, b: Budget, clock: int) {
    && (alone.Some? ==> alone.value.windowMs == b.windowMs)
    && (shared == alone || (shared.None? && alone.Some? && Finished(alone.value, clock)))
  }

  /** Sweeps and foreign keys change no verdict: the keys in `mine` behave as if alone on an unswept map. */
  lemma {:induction false} Isolation(
    shared: Windows, alone: Windows, es: seq<Event>,
    mine: string -> bool, budgetOf: string -> Budget, clock: int)
    requires Chronological(es, clock)
    requires Budgeted(es, mine, budgetOf)
    requires forall k | mine(k) :: Agrees(Lookup(shared, k), Lookup(alone, k), budgetOf(k), clock)
    ensures Verdicts(shared, es, mine) == Verdicts(alone, Keep(es, mine), mine)
    decreases |es|
  {
    if es != [] {
      var e := es[0];
      var shared' := Step(shared, e);
      assert e in es;
      assert Budgeted(es[1..], mine, budgetOf);
      if e.Request? && mine(e.key) {
        var alone' := Step(alone, e);
        assert Agrees(Lookup(shared, e.key), Lookup(alone, e.key), budgetOf(e.key), clock);
        assert shared'[e.key] == alone'[e.key];
        forall k | mine(k) ensures Agrees(Lookup(shared', k), Lookup(alone', k), budgetOf(k), e.at) {
          assert Agrees(Lookup(shared, k), Lookup(alone, k), budgetOf(k), clock);
        }
        Isolation(shared', alone', es[1..], mine, budgetOf, e.at);
        assert Keep(es, mine)[1..] == Keep(es[1..], mine);
      } else {
        forall k | mine(k) ensures Agrees(Lookup(shared', k), Lookup(alone, k), budgetOf(k), e.at) {
          assert Agrees(Lookup(shared, k), Lookup(alone, k), budgetOf(k), clock);
        }
        Isolation(shared', alone, es[1..], mine, budgetOf, e.at);
      }
    }
  }

  /** The map key of an address limiter: prefix, colon, address, with a stand-in for a missing address. */
  function IpKey(prefix: string, ip: string): string {
    prefix + ":" + (if ip == "" then "unknown" else ip)
  }

  predicate StartsWithPrefix(prefix: string, key: string) {
    |prefix| < |key| && key[..|prefix|] == prefix && key[|prefix|] == ':'
  }

  /** Colon-free prefixes keep limiters apart, although addresses may themselves contain colons. */
  lemma PrefixesSeparate(p: string, q: string, a: string, b: string)
    requires ':' !in p && ':' !in q
    ensures StartsWithPrefix(p, IpKey(p, a))
    ensures p != q ==> !StartsWithPrefix(p, IpKey(q, b))
    ensures IpKey(p, a) == IpKey(q, b) ==>
              p == q && (a == b || (a in ["", "unknown"] && b in ["", "unknown"]))
  {
    var x, y := IpKey(p, a), IpKey(q, b);
    assert x[..|p|] == p && x[|p|] == ':' && y[..|q|] == q && y[|q|] == ':';
    assert forall i | 0 <= i < |q| :: y[i] == q[i];
    assert StartsWithPrefix(p, y) ==> forall i | 0 <= i < |p| :: y[i] == p[i];
    if x == y {
      assert p == q;
      assert x[|p| + 1..] == y[|q| + 1..];
      assert x[|p| + 1..] == (if a == "" then "unknown" else a);
      assert y[|q| + 1..] == (if b == "" then "unknown" else b);
    }
  }

  /** Every request came through a limiter with a colon-free prefix, and each prefix has one budget. */
  ghost predicate ThroughLimiters(es: seq<Event>, budgets: map<string, Budget>) {
    && (forall p | p in budgets :: ':' !in p)
    && (forall e | e in es && e.Request? ::
          exists p, ip :: p in budgets && e.key == IpKey(p, ip) && e.budget == budgets[p])
  }

  /** An address limiter answers on any interleaved, swept trace exactly as it would running alone. */
  lemma {:induction false} LimiterAlone(es: seq<Event>, budgets: map<string, Budget>, p: string, clock: int)
    requires ThroughLimiters(es, budgets) && p in budgets
    requires Chronological(es, clock)
    ensures var mine := (k: string) => StartsWithPrefix(p, k);
            Verdicts(map[], es, mine) == Verdicts(map[], Keep(es, mine), mine)
  {
    var mine := (k: string) => StartsWithPrefix(p, k);
    var budgetOf := (k: string) => budgets[p];
    forall e | e in es && e.Request? && mine(e.key) ensures e.budget == budgets[p] {
      var q, ip :| q in budgets && e.key == IpKey(q, ip) && e.budget == budgets[q];
      PrefixesSeparate(p, q, ip, ip);
    }
    Isolation(map[], map[], es, mine, budgetOf, clock);
  }

  // ---------------------------------------------------------------- one key on its own

  /** The verdicts of a single key at the given request times. */
  function Solo(entry: Option<WindowEntry>, b: Budget, times: seq<int>): seq<Verdict>
    decreases |times|
  {
    if times == [] then []
    else
      var e := Counted(entry, b, times[0]);
      [Judge(e, b, times[0])] + Solo(Some(e), b, times[1..])
  }

  predicate Ascending(times: seq<int>, from: int) {
    times == [] || (times[0] >= from && Ascending(times[1..], times[0]))
  }

  lemma {:induction false} SingleKeyIsSolo(ws: Windows, es: seq<Event>, key: string, b: Budget)
    requires forall e | e in es :: e.Request? && e.key == key && e.budget == b
    ensures Verdicts(ws, es, k => k == key) == Solo(Lookup(ws, key), b, Times(es))
    decreases |es|
  {
    if es != [] {
      assert es[0] in es;
      SingleKeyIsSolo(Step(ws, es[0]), es[1..], key, b);
      assert Times(es)[1..] == Times(es[1..]);
    }
  }

  lemma {:induction false} KeepFacts(es: seq<Event>, mine: string -> bool, clock: int)
    requires Chronological(es, clock)
    ensures forall e | e in Keep(es, mine) :: e in es && e.Request? && mine(e.key)
    ensures Ascending(Times(Keep(es, mine)), clock)
  {
    if es != [] {
      KeepFacts(es[1..], mine, es[0].at);
      var rest := Keep(es[1..], mine);
      if es[0].Request? && mine(es[0].key) {
        assert Times([es[0]] + rest)[1..] == Times(rest) by { assert ([es[0]] + rest)[1..] == rest; }
      } else {
        LowerBound(Times(rest), es[0].at, clock);
      }
    }
  }

  lemma LowerBound(times: seq<int>, from: int, lower: int)
    requires Ascending(times, from) && lower <= from
    ensures Ascending(times, lower)
  {}

  /** One key of a shared, swept map is exactly the solo limiter at that key's request times. */
  lemma {:induction false} OneKeyOfManyIsSolo(es: seq<Event>, key: string, b: Budget, clock: int)
    requires Chronological(es, clock)
    requires Budgeted(es, k => k == key, k => b)
    ensures Verdicts(map[], es, k => k == key) == Solo(None, b, Times(Keep(es, k => k == key)))
    ensures Ascending(Times(Keep(es, k => k == key)), clock)
  {
    var mine := (k: string) => k == key;
    Isolation(map[], map[], es, mine, k => b, clock);
    KeepFacts(es, mine, clock);
    SingleKeyIsSolo(map[], Keep(es, mine), key, b);
  }

  // ---------------------------------------------------------------- the burst bound

  /** Requests admitted at a time in the closed interval [lo, hi]. */
  function AdmittedIn(times: seq<int>, vs: seq<Verdict>, lo: int, hi: int): nat
    requires |times| == |vs|
  {
    if times == [] then 0
    else
      (if vs[0].Admitted? && lo <= times[0] <= hi then 1 else 0) + AdmittedIn(times[1..], vs[1..], lo, hi)
  }

  lemma {:induction false} SoloLength(entry: Option<WindowEntry>, b: Budget, times: seq<int>)
    ensures |Solo(entry, b, times)| == |times|
    decreases |times|
  {
    if times != [] {
      SoloLength(Some(Counted(entry, b, times[0])), b, times[1..]);
    }
  }

  /** How many windows can start in [x, hi] when starts are at least w apart. */
  function WindowsFrom(x: int, hi: int, w: nat): nat
    requires w > 0
    decreases hi - x
  {
    if x > hi then 0 else 1 + WindowsFrom(x + w, hi, w)
  }

  lemma {:induction false} LaterStartFewerWindows(x: int, y: int, hi: int, w: nat)
    requires w > 0 && x <= y
    ensures WindowsFrom(y, hi, w) <= WindowsFrom(x, hi, w)
    decreases hi - x
  {
    if y <= hi {
      LaterStartFewerWindows(x + w, y + w, hi, w);
    }
  }

  lemma {:induction false} WindowsFitting(x: int, hi: int, w: nat, k: nat)
    requires w > 0 && x + k * w > hi
    ensures WindowsFrom(x, hi, w) <= k
    decreases k
  {
    if x <= hi {
      assert k > 0;
      assert k * w == w + (k - 1) * w;
      WindowsFitting(x + w, hi, w, k - 1);
    }
  }

  lemma {:induction false} NothingAfter(times: seq<int>, vs: seq<Verdict>, from: int, lo: int, hi: int)
    requires |times| == |vs| && Ascending(times, from) && from > hi
    ensures AdmittedIn(times, vs, lo, hi) == 0
  {
    if times != [] {
      NothingAfter(times[1..], vs[1..], times[0], lo, hi);
    }
  }

  lemma Scale(m: nat, x: nat, y: nat)
    requires x <= y
    ensures m * x <= m * y
    ensures m * (1 + x) == m + m * x
  {}

  function Left(e: WindowEntry, b: Budget): nat {
    if e.count < b.maxRequests then b.maxRequests - e.count else 0
  }

  /** From inside a window: the rest of its budget, then one budget per window that can still start. */
  lemma {:induction false} TailBound(e: WindowEntry, b: Budget, times: seq<int>, from: int, lo: int, hi: int)
    requires b.windowMs > 0 && e.windowStart <= from && Ascending(times, from)
    ensures |Solo(Some(e), b, times)| == |times|
    ensures AdmittedIn(times, Solo(Some(e), b, times), lo, hi)
         <= Left(e, b) + b.maxRequests * WindowsFrom(e.windowStart + b.windowMs, hi, b.windowMs)
    decreases |times|
  {
    SoloLength(Some(e), b, times);
    if times != [] {
      var t, w, limit := times[0], b.windowMs, b.maxRequests;
      var vs := Solo(Some(e), b, times);
      if t > hi {
        NothingAfter(times[1..], vs[1..], t, lo, hi);
        assert limit * WindowsFrom(e.windowStart + w, hi, w) >= 0;
      } else {
        var e' := Counted(Some(e), b, t);
        TailBound(e', b, times[1..], t, lo, hi);
        assert vs[1..] == Solo(Some(e'), b, times[1..]) && vs[0] == Judge(e', b, t);
        if t - e.windowStart >= w {
          var n, m := WindowsFrom(t + w, hi, w), WindowsFrom(e.windowStart + w, hi, w);
          LaterStartFewerWindows(e.windowStart + w, t, hi, w);
          assert 1 + n <= m;
          Scale(limit, 1 + n, m);
          Scale(limit, n, n);
        }
      }
    }
  }

  lemma {:induction false} SoloBurst(entry: Option<WindowEntry>, b: Budget, times: seq<int>, from: int, lo: int, k: nat)
    requires b.windowMs > 0 && k >= 1
    requires entry.Some? ==> entry.value.windowStart <= from
    requires Ascending(times, from)
    ensures |Solo(entry, b, times)| == |times|
    ensures AdmittedIn(times, Solo(entry, b, times), lo, lo + k * b.windowMs) <= (k + 1) * b.maxRequests
    decreases |times|
  {
    SoloLength(entry, b, times);
    if times != [] {
      var t, w, limit := times[0], b.windowMs, b.maxRequests;
      var vs := Solo(entry, b, times);
      var e := Counted(entry, b, t);
      assert vs[1..] == Solo(Some(e), b, times[1..]);
      if t < lo {
        SoloBurst(Some(e), b, times[1..], t, lo, k);
      } else {
        TailBound(e, b, times[1..], t, lo, lo + k * w);
        assert e.windowStart + w > lo;
        WindowsFitting(e.windowStart + w, lo + k * w, w, k);
        Scale(limit, WindowsFrom(e.windowStart + w, lo + k * w, w), k);
        assert vs[0] == Judge(e, b, t) && e.count >= 1;
      }
    }
  }

  /** In any trace, with sweeps and other keys mixed in, k window lengths admit at most (k + 1) budgets of a key. */
  lemma {:induction false} BurstBound(es: seq<Event>, key: string, b: Budget, clock: int, lo: int, k: nat)
    requires Chronological(es, clock)
    requires Budgeted(es, k => k == key, k => b)
    requires b.windowMs > 0 && k >= 1
    ensures var mine := (k: string) => k == key;
            var times, vs := Times(Keep(es, mine)), Verdicts(map[], es, mine);
            |times| == |vs| && AdmittedIn(times, vs, lo, lo + k * b.windowMs) <= (k + 1) * b.maxRequests
  {
    OneKeyOfManyIsSolo(es, key, b, clock);
    SoloBurst(None, b, Times(Keep(es, k => k == key)), clock, lo, k);
  }

  function Copies(n: nat, t: int): seq<int> { seq(n, _ => t) }

  /** maxRequests requests at 0, then maxRequests at each of the next k window boundaries. */
  function Boundaries(b: Budget, first: int, k: nat): seq<int>
    decreases k
  {
    Copies(b.maxRequests, first) + (if k == 0 then [] else Boundaries(b, first + b.windowMs, k - 1))
  }

  lemma {:induction false} BlockAdmitted(e: Option<WindowEntry>, b: Budget, n: nat, t: int, rest: seq<int>, lo: int, hi: int)
    returns (after: Option<WindowEntry>)
    requires b.windowMs > 0 && lo <= t <= hi && n <= b.maxRequests
    requires e.Some? && t - e.value.windowStart < b.windowMs ==>
               e.value.windowStart == t && e.value.count + n <= b.maxRequests
    ensures if n > 0 then after.Some? && after.value.windowStart == t else after == e
    ensures |Solo(e, b, Copies(n, t) + rest)| == n + |rest| && |Solo(after, b, rest)| == |rest|
    ensures AdmittedIn(Copies(n, t) + rest, Solo(e, b, Copies(n, t) + rest), lo, hi)
         == n + AdmittedIn(rest, Solo(after, b, rest), lo, hi)
    decreases n
  {
    var times := Copies(n, t) + rest;
    SoloLength(e, b, times);
    SoloLength(e, b, rest);
    if n == 0 {
      after := e;
      assert times == rest;
    } else {
      var c := Counted(e, b, t);
      assert times[1..] == Copies(n - 1, t) + rest;
      after := BlockAdmitted(Some(c), b, n - 1, t, rest, lo, hi);
      if n == 1 { assert after == Some(c); }
      assert Solo(e, b, times)[1..] == Solo(Some(c), b, times[1..]);
    }
  }

  lemma {:induction false} BoundariesAdmitted(e: Option<WindowEntry>, b: Budget, first: int, k: nat, lo: int, hi: int)
    requires b.windowMs > 0 && b.maxRequests > 0 && lo <= first && first + k * b.windowMs <= hi
    requires e.Some? ==> e.value.windowStart + b.windowMs <= first
    ensures var times := Boundaries(b, first, k);
            |Solo(e, b, times)| == |times| &&
            AdmittedIn(times, Solo(e, b, times), lo, hi) == (k + 1) * b.maxRequests
    decreases k
  {
    assert k * b.windowMs >= 0;
    var rest := if k == 0 then [] else Boundaries(b, first + b.windowMs, k - 1);
    var after := BlockAdmitted(e, b, b.maxRequests, first, rest, lo, hi);
    if k > 0 {
      assert first + k * b.windowMs == first + b.windowMs + (k - 1) * b.windowMs;
      BoundariesAdmitted(after, b, first + b.windowMs, k - 1, lo, hi);
    }
    assert (k + 1) * b.maxRequests == b.maxRequests + k * b.maxRequests;
  }

  /** The bound is reached: no smaller one holds for any budget. */
  lemma {:induction false} BurstBoundIsTight(b: Budget, k: nat)
    requires b.windowMs > 0 && b.maxRequests > 0
    ensures var times := Boundaries(b, 0, k);
            |Solo(None, b, times)| == |times| &&
            AdmittedIn(times, Solo(None, b, times), 0, k * b.windowMs) == (k + 1) * b.maxRequests
  {
    BoundariesAdmitted(None, b, 0, k, 0, k * b.windowMs);
  }

  /** The positive window is needed: a zero-length window starts afresh at every request and refuses none. */
  lemma {:induction false} ZeroWindowRefusesNothing(entry: Option<WindowEntry>, b: Budget, times: seq<int>, from: int)
    requires b.windowMs == 0 && b.maxRequests >= 1
    requires Ascending(times, from) && (entry.Some? ==> entry.value.windowStart <= from)
    ensures forall v | v in Solo(entry, b, times) :: v == Admitted
    decreases |times|
  {
    if times != [] {
      ZeroWindowRefusesNothing(Some(Counted(entry, b, times[0])), b, times[1..], times[0]);
    }
  }

  // ---------------------------------------------------------------- nobody is refused early

  lemma {:induction false} AscendingPairs(times: seq<int>, from: int)
    requires Ascending(times, from)
    ensures forall i | 0 <= i < |times| :: from <= times[i]
    ensures forall i, j | 0 <= i <= j < |times| :: times[i] <= times[j]
  {
    if times != [] {
      AscendingPairs(times[1..], times[0]);
      forall i, j | 0 <= i <= j < |times| ensures times[i] <= times[j] {
        if i > 0 { assert times[i] == times[1..][i - 1] && times[j] == times[1..][j - 1]; }
        if i == 0 < j { assert times[j] == times[1..][j - 1]; }
      }
    }
  }

  lemma {:induction false} FullFrom(b: Budget, times: seq<int>, e: WindowEntry, first: nat, next: nat, i: nat)
    requires forall x, y | 0 <= x <= y < |times| :: times[x] <= times[y]
    requires first < next <= i < |times| && e.windowStart == times[first] && e.count == next - first
    ensures |Solo(Some(e), b, times[next..])| == |times| - next
    ensures Solo(Some(e), b, times[next..])[i - next].Refused? ==>
              i >= b.maxRequests && (b.windowMs > 0 ==> times[i] - times[i - b.maxRequests] < b.windowMs)
    decreases |times| - next
  {
    SoloLength(Some(e), b, times[next..]);
    var e' := Counted(Some(e), b, times[next]);
    var vs := Solo(Some(e), b, times[next..]);
    assert times[next..][1..] == times[next + 1..] && vs[1..] == Solo(Some(e'), b, times[next + 1..]);
    if i > next {
      assert vs[i - next] == vs[1..][i - next - 1];
      FullFrom(b, times, e', if times[next] - e.windowStart >= b.windowMs then next else first, next + 1, i);
    }
  }

  /** A request is refused only if the key has used up its whole budget within less than a window before it. */
  lemma {:induction false} RefusedOnlyWhenFull(es: seq<Event>, key: string, b: Budget, clock: int, i: nat)
    requires Chronological(es, clock) && b.windowMs > 0
    requires Budgeted(es, k => k == key, k => b)
    requires i < |Times(Keep(es, k => k == key))|
    ensures var times, vs := Times(Keep(es, k => k == key)), Verdicts(map[], es, k => k == key);
            |vs| == |times| &&
            (vs[i].Refused? ==> i >= b.maxRequests && times[i] - times[i - b.maxRequests] < b.windowMs)
  {
    var times := Times(Keep(es, k => k == key));
    OneKeyOfManyIsSolo(es, key, b, clock);
    AscendingPairs(times, clock);
    SoloLength(None, b, times);
    var e := Counted(None, b, times[0]);
    var vs := Solo(None, b, times);
    assert vs[1..] == Solo(Some(e), b, times[1..]);
    if i > 0 {
      FullFrom(b, times, e, 0, 1, i);
      assert vs[i] == vs[1..][i - 1];
    }
  }

  // ---------------------------------------------------------------- the retry hint

  /**
   What a refusal promises: its wait is between one second and the window rounded up, a request made
   no sooner is admitted whenever the limiter admits anything at all, and one second less may not do.
   */
  lemma {:induction false} RetryHint(entry: Option<WindowEntry>, b: Budget, now: int, next: int)
    requires b.windowMs > 0 && now <= next
    requires entry.Some? ==> entry.value.windowStart <= now
    ensures var e := Counted(entry, b, now);
            var v := Judge(e, b, now);
            v.Refused? ==>
              && 1 <= v.retryAfterSeconds <= CeilDiv(b.windowMs, 1000)
              && (next >= now + 1000 * v.retryAfterSeconds ==>
                    (Solo(Some(e), b, [next]) == [Admitted] <==> b.maxRequests >= 1))
              && (next <= now + 1000 * (v.retryAfterSeconds - 1) ==> Solo(Some(e), b, [next])[0].Refused?)
  {
    var e := Counted(entry, b, now);
    var remaining := b.windowMs - (now - e.windowStart);
    assert 0 < remaining <= b.windowMs;
    var v := Judge(e, b, now);
    if v.Refused? {
      var r := v.retryAfterSeconds;
      assert 1000 * (r - 1) < remaining <= 1000 * r;
      assert [next][1..] == [];
      var e' := Counted(Some(e), b, next);
      assert Solo(Some(e), b, [next]) == [Judge(e', b, next)] + Solo(Some(e'), b, []) == [Judge(e', b, next)];
      if next >= now + 1000 * r { assert e'.count == 1; }
    }
  }

  lemma {:induction false} SoloRetry(entry: Option<WindowEntry>, b: Budget, times: seq<int>, from: int, i: nat)
    requires b.windowMs > 0 && Ascending(times, from) && i < |times|
    requires entry.Some? ==> entry.value.windowStart <= from
    ensures |Solo(entry, b, times)| == |times|
    ensures var vs := Solo(entry, b, times);
            vs[i].Refused? ==>
              && 1 <= vs[i].retryAfterSeconds <= CeilDiv(b.windowMs, 1000)
              && (i + 1 < |times| && times[i + 1] >= times[i] + 1000 * vs[i].retryAfterSeconds ==>
                    (vs[i + 1] == Admitted <==> b.maxRequests >= 1))
              && (i + 1 < |times| && times[i + 1] <= times[i] + 1000 * (vs[i].retryAfterSeconds - 1) ==> vs[i + 1].Refused?)
    decreases |times|
  {
    SoloLength(entry, b, times);
    var e, rest := Counted(entry, b, times[0]), times[1..];
    var vs := Solo(entry, b, times);
    assert vs[1..] == Solo(Some(e), b, rest);
    if i > 0 {
      SoloRetry(Some(e), b, rest, times[0], i - 1);
      assert vs[i] == vs[1..][i - 1] && (i + 1 < |times| ==> vs[i + 1] == vs[1..][i]);
    } else if rest == [] {
      RetryHint(entry, b, times[0], times[0]);
    } else {
      RetryHint(entry, b, times[0], rest[0]);
      var e' := Counted(Some(e), b, rest[0]);
      assert Solo(Some(e), b, [rest[0]])[0] == Judge(e', b, rest[0]) == vs[1..][0] == vs[1];
    }
  }

  /** The retry hint holds for every refusal in every trace, with sweeps and other keys in between. */
  lemma {:induction false} RefusalsAreHonest(es: seq<Event>, key: string, b: Budget, clock: int, i: nat)
    requires Chronological(es, clock) && b.windowMs > 0
    requires Budgeted(es, k => k == key, k => b)
    requires i < |Times(Keep(es, k => k == key))|
    ensures var times, vs := Times(Keep(es, k => k == key)), Verdicts(map[], es, k => k == key);
            |vs| == |times| &&
            (vs[i].Refused? ==>
              && 1 <= vs[i].retryAfterSeconds <= CeilDiv(b.windowMs, 1000)
              && (i + 1 < |times| && times[i + 1] >= times[i] + 1000 * vs[i].retryAfterSeconds ==>
                    (vs[i + 1] == Admitted <==> b.maxRequests >= 1))
              && (i + 1 < |times| && times[i + 1] <= times[i] + 1000 * (vs[i].retryAfterSeconds - 1) ==> vs[i + 1].Refused?))
  {
    OneKeyOfManyIsSolo(es, key, b, clock);
    SoloRetry(None, b, Times(Keep(es, k => k == key)), clock, i);
  }

  // ---------------------------------------------------------------- the limiters

  /** The two process-wide maps and the middleware bodies that update them. */
  class Limiters {
    var agentWindows: Windows
    var ipWindows: Windows

    constructor ()
      ensures agentWindows == map[] && ipWindows == map[]
    {
      agentWindows, ipWindows := map[], map[];
    }

    /** The middleware built by createRateLimiter. */
    method AgentRequest(agentId: string, b: Budget, now: int) returns (v: Verdict)
      modifies this`agentWindows
      ensures agentWindows == Step(old(agentWindows), Request(agentId, b, now))
      ensures v == Judge(agentWindows[agentId], b, now)
    {
      v := Admitted;
      var fresh' := agentId !in agentWindows || now - agentWindows[agentId].windowStart >= b.windowMs;
      if fresh' {
        agentWindows := agentWindows[agentId := WindowEntry(0, now, b.windowMs)];
      }
      var entry := agentWindows[agentId];
      entry := entry.(count := entry.count + 1);
      agentWindows := agentWindows[agentId := entry];
      if entry.count > b.maxRequests {
        v := Refused(CeilDiv(b.windowMs - (now - entry.windowStart), 1000));
      }
    }

    /** The middleware built by createIpRateLimiter. */
    method IpRequest(keyPrefix: string, ip: string, b: Budget, now: int) returns (v: Verdict)
      modifies this`ipWindows
      ensures ipWindows == Step(old(ipWindows), Request(IpKey(keyPrefix, ip), b, now))
      ensures v == Judge(ipWindows[IpKey(keyPrefix, ip)], b, now)
    {
      v := Admitted;
      var clientIp := IpKey(keyPrefix, ip);
      var fresh' := clientIp !in ipWindows || now - ipWindows[clientIp].windowStart >= b.windowMs;
      if fresh' {
        ipWindows := ipWindows[clientIp := WindowEntry(0, now, b.windowMs)];
      }
      var entry := ipWindows[clientIp];
      entry := entry.(count := entry.count + 1);
      ipWindows := ipWindows[clientIp := entry];
      if entry.count > b.maxRequests {
        v := Refused(CeilDiv(b.windowMs - (now - entry.windowStart), 1000));
      }
    }

    /** The timer body: visits every key of both maps and deletes finished windows. */
    method PruneExpiredEntries(now: int)
      modifies this
      ensures agentWindows == Step(old(agentWindows), Sweep(now))
      ensures ipWindows == Step(old(ipWindows), Sweep(now))
    {
      agentWindows := WithoutFinished(agentWindows, now);
      ipWindows := WithoutFinished(ipWindows, now);
    }
  }

  method WithoutFinished(ws: Windows, now: int) returns (left: Windows)
    ensures left == Pruned(ws, now)
  {
    left := ws;
    var todo := ws.Keys;
    while todo != {}
      invariant todo <= ws.Keys
      invariant left.Keys == set k | k in ws && (k in todo || !Finished(ws[k], now))
      invariant forall k | k in left :: left[k] == ws[k]
      decreases todo
    {
      var key :| key in todo;
      todo := todo - {key};
      if Finished(left[key], now) {
        left := left - {key};
      }
    }
  }
}
