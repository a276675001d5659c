/**
 The duplicate-comment guard: a time-ordered array of claims, pruned from the front, with a
 claim given back by identity when the send it was made for fails.

 `System` puts the guard beside the POST requests that use it. The list of posts is the full,
 never pruned history, so `History` verdicts are the reference the pruned store is compared with.
 */
module DuplicateGuard {
  import opened Common

  datatype Key = Key(hash: string, leadId: string, agentId: string)

  /** `id` stands for the identity of the entry object, which is what a release compares. */
  datatype DuplicateEntry = DuplicateEntry(id: nat, key: Key, timestamp: int)

  datatype Guard = PassedUnchecked | Claimed(id: nat) | Duplicate

  // ---------------------------------------------------------------- the array

  /** Removes the longest prefix older than the cutoff, as the counting loop and splice do. */
  function DropExpired(store: seq<DuplicateEntry>, cutoff: int): seq<DuplicateEntry> {
    if store != [] && store[0].timestamp < cutoff then DropExpired(store[1..], cutoff) else store
  }

  predicate HasRecent(store: seq<DuplicateEntry>, key: Key, windowMs: int, now: int) {
    exists i :: 0 <= i < |store| && store[i].key == key && now - store[i].timestamp < windowMs
  }

  function Without(store: seq<DuplicateEntry>, id: nat): seq<DuplicateEntry> {
    if store == [] then []
    else if store[0].id == id then store[1..]
    else [store[0]] + Without(store[1..], id)
  }

  lemma {:induction false} WithoutAt(store: seq<DuplicateEntry>, id: nat, index: nat)
    requires index <= |store| && (forall j | 0 <= j < index :: store[j].id != id)
    requires index < |store| ==> store[index].id == id
    ensures Without(store, id) == if index < |store| then store[..index] + store[index + 1..] else store
  {
    if index > 0 {
      WithoutAt(store[1..], id, index - 1);
      assert store == [store[0]] + store[1..];
    }
  }

  predicate Sorted(store: seq<DuplicateEntry>) {
    forall i, j :: 0 <= i < j < |store| ==> store[i].timestamp <= store[j].timestamp && store[i].id < store[j].id
  }

  /** On a time-ordered array the front splice removes every expired entry and nothing else. */
  lemma {:induction false} PrefixIsEverythingExpired(store: seq<DuplicateEntry>, cutoff: int)
    requires Sorted(store)
    ensures Sorted(DropExpired(store, cutoff))
    ensures forall e :: e in DropExpired(store, cutoff) <==> e in store && e.timestamp >= cutoff
  {
    if store != [] && store[0].timestamp < cutoff {
      PrefixIsEverythingExpired(store[1..], cutoff);
      assert store == [store[0]] + store[1..];
    }
  }

  /** A release takes out the claim with that identity and no other. */
  lemma {:induction false} ReleaseRemovesOnlyItsOwn(store: seq<DuplicateEntry>, id: nat)
    requires Sorted(store)
    ensures Sorted(Without(store, id))
    ensures forall e :: e in Without(store, id) <==> e in store && e.id != id
  {
    if store != [] {
      assert store == [store[0]] + store[1..];
      if store[0].id != id {
        ReleaseRemovesOnlyItsOwn(store[1..], id);
        var rest := Without(store[1..], id);
        forall j | 0 <= j < |rest| ensures store[0].timestamp <= rest[j].timestamp && store[0].id < rest[j].id {
          assert rest[j] in store[1..];
        }
      }
    }
  }

  // ---------------------------------------------------------------- the guard with its requests

  datatype Phase = InFlight | Succeeded | Failed

  datatype Post = Post(key: Key, acceptedAt: int, phase: Phase)

  datatype System = System(store: seq<DuplicateEntry>, posts: seq<Post>)

  datatype Event =
    | Submit(key: Option<Key>, at: int)
    | Finish(id: nat, sent: bool, at: int)
    | Prune(at: int)

  /** detectDuplicate followed, on a claim, by the start of the send. */
  function Submitted(s: System, key: Option<Key>, windowMs: int, now: int): (System, Guard) {
    if key.None? then (s, PassedUnchecked)
    else
      var kept := DropExpired(s.store, now - windowMs);
      if HasRecent(kept, key.value, windowMs, now) then (s.(store := kept), Duplicate)
      else
        (System(kept + [DuplicateEntry(|s.posts|, key.value, now)], s.posts + [Post(key.value, now, InFlight)]),
         Claimed(|s.posts|))
  }

  /** The end of the send: audited SUCCESS, or released and audited FAILED. */
  function Finished(s: System, id: nat, sent: bool): System {
    if id < |s.posts| && s.posts[id].phase == InFlight then
      if sent then s.(posts := s.posts[id := s.posts[id].(phase := Succeeded)])
      else System(Without(s.store, id), s.posts[id := s.posts[id].(phase := Failed)])
    else s
  }

  function Step(s: System, e: Event, windowMs: int): System {
    match e
    case Submit(key, now) => Submitted(s, key, windowMs, now).0
    case Finish(id, sent, _) => Finished(s, id, sent)
    case Prune(now) => s.(store := DropExpired(s.store, now - windowMs))
  }

  function Run(s: System, es: seq<Event>, windowMs: int): System
    decreases |es|
  {
    if es == [] then s else Run(Step(s, es[0], windowMs), es[1..], windowMs)
  }

  predicate Chronological(es: seq<Event>, from: int) {
    es == [] || (es[0].at >= from && Chronological(es[1..], es[0].at))
  }

  /** The verdict by the full history: some post with this key, not released, is inside the window. */
  predicate RecentInHistory(posts: seq<Post>, key: Key, windowMs: int, now: int) {
    exists i :: 0 <= i < |posts| && posts[i].phase != Failed && posts[i].key == key && now - posts[i].acceptedAt < windowMs
  }

  function Claim(posts: seq<Post>, i: nat): DuplicateEntry
    requires i < |posts|
  {
    DuplicateEntry(i, posts[i].key, posts[i].acceptedAt)
  }

  /** Every stored claim is that of an unreleased post. */
  ghost predicate Backed(s: System) {
    forall e | e in s.store :: e.id < |s.posts| && s.posts[e.id].phase != Failed && e == Claim(s.posts, e.id)
  }

  /** Every unreleased post inside the window has its claim stored. */
  ghost predicate Covered(s: System, windowMs: int, clock: int) {
    forall i | 0 <= i < |s.posts| && s.posts[i].phase != Failed && clock - s.posts[i].acceptedAt < windowMs ::
      Claim(s.posts, i) in s.store
  }

  ghost predicate NotFuture(posts: seq<Post>, clock: int) {
    forall i | 0 <= i < |posts| :: posts[i].acceptedAt <= clock
  }

  /** Unreleased posts with one key were accepted at least a window apart. */
  ghost predicate Apart(posts: seq<Post>, windowMs: int) {
    forall i, j | 0 <= i < j < |posts| && posts[i].phase != Failed && posts[j].phase != Failed
      && posts[i].key == posts[j].key :: posts[j].acceptedAt - posts[i].acceptedAt >= windowMs
  }

  ghost predicate Inv(s: System, windowMs: int, clock: int) {
    Sorted(s.store) && Backed(s) && Covered(s, windowMs, clock) && NotFuture(s.posts, clock) && Apart(s.posts, windowMs)
  }

  lemma InvLater(s: System, windowMs: int, clock: int, later: int)
    requires Inv(s, windowMs, clock) && clock <= later
    ensures Inv(s, windowMs, later)
  {}

  lemma {:induction false} PruneKeepsInv(s: System, windowMs: int, now: int)
    requires Inv(s, windowMs, now)
    ensures Inv(s.(store := DropExpired(s.store, now - windowMs)), windowMs, now)
    ensures forall e | e in DropExpired(s.store, now - windowMs) :: now - e.timestamp <= windowMs
  {
    PrefixIsEverythingExpired(s.store, now - windowMs);
  }

  /** The pruned store answers every request exactly as the full history of unreleased claims does. */
  lemma {:induction false} SameVerdictAsHistory(s: System, key: Key, windowMs: int, now: int)
    requires Inv(s, windowMs, now)
    ensures HasRecent(DropExpired(s.store, now - windowMs), key, windowMs, now)
       <==> RecentInHistory(s.posts, key, windowMs, now)
  {
    var kept := DropExpired(s.store, now - windowMs);
    PruneKeepsInv(s, windowMs, now);
    if HasRecent(kept, key, windowMs, now) {
      var i :| 0 <= i < |kept| && kept[i].key == key && now - kept[i].timestamp < windowMs;
      assert kept[i] in kept;
      assert s.posts[kept[i].id].phase != Failed;
    }
    if RecentInHistory(s.posts, key, windowMs, now) {
      var i :| 0 <= i < |s.posts| && s.posts[i].phase != Failed && s.posts[i].key == key && now - s.posts[i].acceptedAt < windowMs;
      assert Claim(s.posts, i) in kept;
    }
  }

  lemma {:induction false} ClaimKeepsInv(s: System, key: Key, windowMs: int, now: int)
    requires Inv(s, windowMs, now) && !RecentInHistory(s.posts, key, windowMs, now)
    ensures Inv(System(s.store + [DuplicateEntry(|s.posts|, key, now)], s.posts + [Post(key, now, InFlight)]), windowMs, now)
  {
    var n := |s.posts|;
    var t := System(s.store + [DuplicateEntry(n, key, now)], s.posts + [Post(key, now, InFlight)]);
    assert forall i | 0 <= i < n :: t.posts[i] == s.posts[i];
    assert Backed(t) by {
      forall e | e in t.store ensures e.id < |t.posts| && t.posts[e.id].phase != Failed && e == Claim(t.posts, e.id) {
        if e in s.store { assert e.id < n; }
      }
    }
    assert Sorted(t.store) by {
      forall i, j | 0 <= i < j < |t.store| ensures t.store[i].timestamp <= t.store[j].timestamp && t.store[i].id < t.store[j].id {
        assert s.store[i] in s.store && s.store[i].id < n;
      }
    }
    assert Covered(t, windowMs, now) by {
      forall i | 0 <= i <= n && t.posts[i].phase != Failed && now - t.posts[i].acceptedAt < windowMs
        ensures Claim(t.posts, i) in t.store
      {
        if i < n {
          assert Claim(s.posts, i) in s.store;
        } else {
          assert t.store[|s.store|] == Claim(t.posts, n);
        }
      }
    }
    assert Apart(t.posts, windowMs);
  }

  lemma {:induction false} SubmitKeepsInv(s: System, key: Option<Key>, windowMs: int, now: int)
    requires Inv(s, windowMs, now)
    ensures Inv(Submitted(s, key, windowMs, now).0, windowMs, now)
  {
    if key.Some? {
      PruneKeepsInv(s, windowMs, now);
      SameVerdictAsHistory(s, key.value, windowMs, now);
      if !RecentInHistory(s.posts, key.value, windowMs, now) {
        ClaimKeepsInv(s.(store := DropExpired(s.store, now - windowMs)), key.value, windowMs, now);
      }
    }
  }

  lemma {:induction false} FinishKeepsInv(s: System, id: nat, sent: bool, windowMs: int, now: int)
    requires Inv(s, windowMs, now)
    ensures Inv(Finished(s, id, sent), windowMs, now)
  {
    ReleaseRemovesOnlyItsOwn(s.store, id);
    var t := Finished(s, id, sent);
    assert forall i | 0 <= i < |s.posts| :: Claim(t.posts, i) == Claim(s.posts, i);
  }

  function Last(es: seq<Event>, clock: int): int {
    if es == [] then clock else Last(es[1..], es[0].at)
  }

  lemma {:induction false} RunKeepsInv(s: System, es: seq<Event>, windowMs: int, clock: int)
    requires Inv(s, windowMs, clock) && Chronological(es, clock)
    ensures Inv(Run(s, es, windowMs), windowMs, Last(es, clock))
    decreases |es|
  {
    if es != [] {
      var now := es[0].at;
      InvLater(s, windowMs, clock, now);
      match es[0] {
        case Submit(key, _) => SubmitKeepsInv(s, key, windowMs, now);
        case Finish(id, sent, _) => FinishKeepsInv(s, id, sent, windowMs, now);
        case Prune(_) => PruneKeepsInv(s, windowMs, now);
      }
      RunKeepsInv(Step(s, es[0], windowMs), es[1..], windowMs, now);
    }
  }

  /**
   For every run: the store is time-ordered, its claims inside the window are exactly those of requests
   in flight or audited SUCCESS, and a request arriving next gets the verdict of the full history.
   */
  lemma {:induction false} ClaimsMatchRequests(es: seq<Event>, windowMs: int, clock: int, now: int)
    requires Chronological(es, clock) && now >= Last(es, clock)
    ensures var s := Run(System([], []), es, windowMs);
            && Sorted(s.store)
            && (forall e :: e in s.store && now - e.timestamp < windowMs <==>
                  exists i :: 0 <= i < |s.posts| && e == Claim(s.posts, i) && s.posts[i].phase != Failed
                              && now - s.posts[i].acceptedAt < windowMs)
            && (forall key :: Submitted(s, Some(key), windowMs, now).1 == Duplicate
                         <==> RecentInHistory(s.posts, key, windowMs, now))
  {
    RunKeepsInv(System([], []), es, windowMs, clock);
    var s := Run(System([], []), es, windowMs);
    InvLater(s, windowMs, Last(es, clock), now);
    forall e | e in s.store && now - e.timestamp < windowMs
      ensures exists i :: 0 <= i < |s.posts| && e == Claim(s.posts, i) && s.posts[i].phase != Failed
                          && now - s.posts[i].acceptedAt < windowMs
    {
      assert e == Claim(s.posts, e.id);
    }
    forall key ensures Submitted(s, Some(key), windowMs, now).1 == Duplicate <==> RecentInHistory(s.posts, key, windowMs, now) {
      SameVerdictAsHistory(s, key, windowMs, now);
    }
  }

  /** Two different posts with one key that both succeed were accepted at least one window apart. */
  lemma {:induction false} SuccessesAreAWindowApart(es: seq<Event>, windowMs: int, clock: int, i: nat, j: nat)
    requires Chronological(es, clock)
    requires var ps := Run(System([], []), es, windowMs).posts;
             i < j < |ps| && ps[i].key == ps[j].key && ps[i].phase == Succeeded && ps[j].phase == Succeeded
    ensures var ps := Run(System([], []), es, windowMs).posts;
            ps[j].acceptedAt - ps[i].acceptedAt >= windowMs
  {
    RunKeepsInv(System([], []), es, windowMs, clock);
  }

  /** After a prune nothing in the store is older than the window. */
  lemma {:induction false} NothingStaleAfterPrune(es: seq<Event>, windowMs: int, clock: int, now: int)
    requires Chronological(es, clock) && now >= Last(es, clock)
    ensures forall e | e in Step(Run(System([], []), es, windowMs), Prune(now), windowMs).store ::
              now - e.timestamp <= windowMs
  {
    RunKeepsInv(System([], []), es, windowMs, clock);
    InvLater(Run(System([], []), es, windowMs), windowMs, Last(es, clock), now);
    PruneKeepsInv(Run(System([], []), es, windowMs), windowMs, now);
  }

  lemma {:induction false} ReleasedPostPlaysNoPart(posts: seq<Post>, id: nat, key: Key, windowMs: int, now: int)
    requires id < |posts|
    ensures RecentInHistory(posts[id := posts[id].(phase := Failed)], key, windowMs, now)
       <==> exists i :: 0 <= i < |posts| && i != id && posts[i].phase != Failed
                        && posts[i].key == key && now - posts[i].acceptedAt < windowMs
  {
    var left := posts[id := posts[id].(phase := Failed)];
    assert forall i | 0 <= i < |posts| && i != id :: left[i] == posts[i];
  }

  /** A failed send frees the key: the agent's retry is judged as if the failed post had never been made. */
  lemma {:induction false} FailedSendIsForgotten(s: System, id: nat, key: Key, windowMs: int, now: int)
    requires Inv(s, windowMs, now)
    requires id < |s.posts| && s.posts[id].phase == InFlight
    ensures Submitted(Finished(s, id, false), Some(key), windowMs, now).1 == Duplicate
       <==> exists i :: 0 <= i < |s.posts| && i != id && s.posts[i].phase != Failed
                        && s.posts[i].key == key && now - s.posts[i].acceptedAt < windowMs
  {
    FinishKeepsInv(s, id, false, windowMs, now);
    SameVerdictAsHistory(Finished(s, id, false), key, windowMs, now);
    ReleasedPostPlaysNoPart(s.posts, id, key, windowMs, now);
  }

  // ---------------------------------------------------------------- from the events alone

  /** How the first end of the send for this claim turned out, if the run has one. */
  function FirstEnd(es: seq<Event>, id: nat): Option<bool> {
    if es == [] then None
    else if es[0].Finish? && es[0].id == id then Some(es[0].sent)
    else FirstEnd(es[1..], id)
  }

  /** A submit is unchecked without a body, refused exactly for a claim of its key inside the window, and else becomes a claim. */
  lemma {:induction false} SubmitAnswers(s: System, key: Option<Key>, windowMs: int, now: int)
    requires Inv(s, windowMs, now)
    ensures var (t, verdict) := Submitted(s, key, windowMs, now);
            match key
            case None => verdict == PassedUnchecked && t == s
            case Some(k) =>
              if exists i :: 0 <= i < |s.posts| && !s.posts[i].phase.Failed? && s.posts[i].key == k && now - s.posts[i].acceptedAt < windowMs
              then verdict == Duplicate && t.posts == s.posts
              else verdict == Claimed(|s.posts|) && t.posts == s.posts + [Post(k, now, InFlight)]
  {
    if key.Some? { SameVerdictAsHistory(s, key.value, windowMs, now); }
  }

  /** A claim keeps its key and time, and its phase is that of the first end of its send: succeeded or failed as that was. */
  lemma {:induction false} PhaseIsFirstEnd(s: System, es: seq<Event>, windowMs: int, id: nat)
    requires id < |s.posts| && s.posts[id].phase == InFlight
    ensures var ps := Run(s, es, windowMs).posts;
            && id < |ps| && ps[id].key == s.posts[id].key && ps[id].acceptedAt == s.posts[id].acceptedAt
            && ps[id].phase == match FirstEnd(es, id) case None => InFlight case Some(sent) => if sent then Succeeded else Failed
    decreases |es|
  {
    if es != [] {
      var t := Step(s, es[0], windowMs);
      if es[0].Finish? && es[0].id == id {
        SettledStays(t, es[1..], windowMs, id);
      } else {
        PhaseIsFirstEnd(t, es[1..], windowMs, id);
      }
    }
  }

  lemma {:induction false} SettledStays(s: System, es: seq<Event>, windowMs: int, id: nat)
    requires id < |s.posts| && s.posts[id].phase != InFlight
    ensures id < |Run(s, es, windowMs).posts| && Run(s, es, windowMs).posts[id] == s.posts[id]
    decreases |es|
  {
    if es != [] { SettledStays(Step(s, es[0], windowMs), es[1..], windowMs, id); }
  }

  lemma {:induction false} LastIsLater(es: seq<Event>, clock: int)
    requires Chronological(es, clock)
    ensures Last(es, clock) >= clock
    decreases |es|
  {
    if es != [] { LastIsLater(es[1..], es[0].at); }
  }

  /**
   In every run, once a comment was accepted, the same comment is refused for the whole window unless the
   first end of its send was a failure: while the send is under way, and after it succeeded.
   */
  lemma {:induction false} AcceptedHoldsItsKey(
    before: seq<Event>, key: Key, at: int, after: seq<Event>, windowMs: int, clock: int, now: int)
    requires Chronological(before, clock) && at >= Last(before, clock) && Chronological(after, at) && now >= Last(after, at)
    requires Submitted(Run(System([], []), before, windowMs), Some(key), windowMs, at).1.Claimed?
    ensures var (s, verdict) := Submitted(Run(System([], []), before, windowMs), Some(key), windowMs, at);
            FirstEnd(after, verdict.id) != Some(false) && now < at + windowMs ==>
              Submitted(Run(s, after, windowMs), Some(key), windowMs, now).1 == Duplicate
  {
    var s0 := Run(System([], []), before, windowMs);
    RunKeepsInv(System([], []), before, windowMs, clock);
    InvLater(s0, windowMs, Last(before, clock), at);
    SubmitAnswers(s0, Some(key), windowMs, at);
    SubmitKeepsInv(s0, Some(key), windowMs, at);
    var (s, verdict) := Submitted(s0, Some(key), windowMs, at);
    var id := verdict.id;
    PhaseIsFirstEnd(s, after, windowMs, id);
    RunKeepsInv(s, after, windowMs, at);
    LastIsLater(after, at);
    var t := Run(s, after, windowMs);
    InvLater(t, windowMs, Last(after, at), now);
    SubmitAnswers(t, Some(key), windowMs, now);
    if FirstEnd(after, id) != Some(false) && now < at + windowMs {
      assert !t.posts[id].phase.Failed? && t.posts[id].key == key && now - t.posts[id].acceptedAt < windowMs;
    }
  }

  /** And once the first end of its send was a failure, it is accepted again at once, if nobody else has claimed it since. */
  lemma {:induction false} FailedSendFreesItsKey(
    before: seq<Event>, key: Key, at: int, end: int, windowMs: int, clock: int, now: int)
    requires Chronological(before, clock) && Last(before, clock) <= at <= end <= now
    requires Submitted(Run(System([], []), before, windowMs), Some(key), windowMs, at).1.Claimed?
    ensures var (s, verdict) := Submitted(Run(System([], []), before, windowMs), Some(key), windowMs, at);
            Submitted(Step(s, Finish(verdict.id, false, end), windowMs), Some(key), windowMs, now).1.Claimed?
  {
    var s0 := Run(System([], []), before, windowMs);
    RunKeepsInv(System([], []), before, windowMs, clock);
    InvLater(s0, windowMs, Last(before, clock), at);
    SubmitAnswers(s0, Some(key), windowMs, at);
    SubmitKeepsInv(s0, Some(key), windowMs, at);
    var (s, verdict) := Submitted(s0, Some(key), windowMs, at);
    InvLater(s, windowMs, at, now);
    FailedSendIsForgotten(s, verdict.id, key, windowMs, now);
    FinishKeepsInv(s, verdict.id, false, windowMs, now);
    SubmitAnswers(Finished(s, verdict.id, false), Some(key), windowMs, now);
    forall i | 0 <= i < |s.posts| && i != verdict.id && s.posts[i].phase != Failed && s.posts[i].key == key
      ensures now - s.posts[i].acceptedAt >= windowMs
    {
      assert s.posts[i] == s0.posts[i];
    }
  }

  // ---------------------------------------------------------------- the middleware and the handler

  class CommentGate {
    const windowMs: int
    var duplicateStore: seq<DuplicateEntry>
    ghost var posts: seq<Post>
    var created: nat

    constructor (windowMs: int)
      ensures this.windowMs == windowMs && View() == System([], []) && Valid()
    {
      this.windowMs := windowMs;
      duplicateStore, posts, created := [], [], 0;
    }

    ghost predicate Valid()
      reads this
    {
      created == |posts|
    }

    ghost function View(): System
      reads this
    {
      System(duplicateStore, posts)
    }

    method PruneExpiredEntries(now: int)
      modifies this`duplicateStore
      ensures View() == Step(old(View()), Prune(now), windowMs)
    {
      var cutoff := now - windowMs;
      var expired := 0;
      while expired < |duplicateStore| && duplicateStore[expired].timestamp < cutoff
        invariant 0 <= expired <= |duplicateStore|
        invariant DropExpired(duplicateStore, cutoff) == DropExpired(duplicateStore[expired..], cutoff)
      {
        expired := expired + 1;
      }
      if expired > 0 {
        duplicateStore := duplicateStore[expired..];
      }
    }

    method HasDuplicate(key: Key, now: int) returns (found: bool)
      ensures found == HasRecent(duplicateStore, key, windowMs, now)
    {
      found := false;
      for i := 0 to |duplicateStore|
        invariant !HasRecent(duplicateStore[..i], key, windowMs, now)
      {
        var entry := duplicateStore[i];
        if entry.key == key && now - entry.timestamp < windowMs {
          return true;
        }
      }
      assert duplicateStore[..|duplicateStore|] == duplicateStore;
    }

    /** No key means the body was missing or not a string, which passes the request on unchecked. */
    method DetectDuplicate(key: Option<Key>, now: int) returns (verdict: Guard)
      requires Valid()
      modifies this
      ensures Valid()
      ensures (View(), verdict) == Submitted(old(View()), key, windowMs, now)
    {
      if key.None? {
        return PassedUnchecked;
      }
      PruneExpiredEntries(now);
      var isDuplicate := HasDuplicate(key.value, now);
      if isDuplicate {
        return Duplicate;
      }
      verdict := Claimed(created);
      duplicateStore := duplicateStore + [DuplicateEntry(created, key.value, now)];
      posts := posts + [Post(key.value, now, InFlight)];
      created := created + 1;
    }

    /** The closure handed to the request: find the entry by identity and splice it out if it is there. */
    method ReleaseDuplicate(id: nat)
      modifies this`duplicateStore
      ensures duplicateStore == Without(old(duplicateStore), id)
    {
      var index := 0;
      while index < |duplicateStore| && duplicateStore[index].id != id
        invariant 0 <= index <= |duplicateStore|
        invariant forall j | 0 <= j < index :: duplicateStore[j].id != id
      {
        index := index + 1;
      }
      WithoutAt(duplicateStore, id, index);
      if index < |duplicateStore| {
        duplicateStore := duplicateStore[..index] + duplicateStore[index + 1..];
      }
    }

    /** The POST handler once its send has resolved or thrown. */
    method FinishPost(id: nat, sent: bool)
      requires Valid() && id < |posts| && posts[id].phase == InFlight
      modifies this
      ensures Valid()
      ensures View() == Finished(old(View()), id, sent)
    {
      if !sent {
        ReleaseDuplicate(id);
      }
      posts := posts[id := posts[id].(phase := if sent then Succeeded else Failed)];
    }
  }
}
