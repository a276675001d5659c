/**
 JSON Web Tokens with a revocation list, and the single-use OAuth states, both swept in the background.

 Signing is abstract: a token is named by its jti, `issued` holds the claims of every token the secret has
 signed, and anything else fails verification. A token is refused on and after its exp (section 4.1.4 of
 RFC 7519) and jtis are unique (section 4.1.7).
 */
module TokenService {
  import opened Common

  const STATE_EXPIRY_MS := 300000

  datatype Claims = Claims(memberId: string, domain: string, clientEndpoint: string, exp: int)

  datatype Vault = Vault(
    jtiBlacklist: map<string, int>,
    oauthStates: map<string, int>,
    issued: map<string, Claims>)

  const EMPTY := Vault(map[], map[], map[])

  /** Math.floor(ms / 1000). */
  function Seconds(ms: int): int { ms / 1000 }

  // ---------------------------------------------------------------- specification

  function GenerateState(v: Vault, state: string, now: int): Vault {
    v.(oauthStates := v.oauthStates[state := now])
  }

  /** A state is taken out of the store by any attempt to use it, and was good if it is not too old. */
  function ValidateState(v: Vault, state: string, now: int): (Vault, bool) {
    if state !in v.oauthStates then (v, false)
    else (v.(oauthStates := v.oauthStates - {state}), now - v.oauthStates[state] <= STATE_EXPIRY_MS)
  }

  function Sign(v: Vault, jti: string, memberId: string, domain: string, clientEndpoint: string, exp: int): Vault {
    v.(issued := v.issued[jti := Claims(memberId, domain, clientEndpoint, exp)])
  }

  function Verify(v: Vault, token: string, now: int): Option<Claims> {
    if token in v.issued && Seconds(now) < v.issued[token].exp && token !in v.jtiBlacklist
    then Some(v.issued[token])
    else None
  }

  function Blacklist(v: Vault, jti: string, exp: int): Vault {
    v.(jtiBlacklist := v.jtiBlacklist[jti := exp])
  }

  /** The refresh handler: a token that verifies is revoked and a new one signed for the same claims. */
  function Renew(v: Vault, token: string, jti: string, exp: int, now: int): (Vault, bool) {
    match Verify(v, token, now)
    case None => (v, false)
    case Some(u) => (Sign(Blacklist(v, token, u.exp), jti, u.memberId, u.domain, u.clientEndpoint, exp), true)
  }

  /** The logout handler. */
  function Revoke(v: Vault, token: string, now: int): (Vault, bool) {
    match Verify(v, token, now)
    case None => (v, false)
    case Some(u) => (Blacklist(v, token, u.exp), true)
  }

  function AfterCleanup(v: Vault, now: int): Vault {
    v.(jtiBlacklist := map j | j in v.jtiBlacklist && !(v.jtiBlacklist[j] < Seconds(now)) :: v.jtiBlacklist[j],
       oauthStates := map s | s in v.oauthStates && !(v.oauthStates[s] < now - STATE_EXPIRY_MS) :: v.oauthStates[s])
  }

  /** Seconds since the epoch are whole seconds that have passed. */
  lemma SecondsHavePassed(ms: int)
    ensures 1000 * Seconds(ms) <= ms < 1000 * Seconds(ms) + 1000
  {}

  /** A sweep forgets exactly the revocations of expired tokens and the states more than 300 s old. */
  lemma {:induction false} CleanupForgets(v: Vault, now: int, key: string)
    ensures var w := AfterCleanup(v, now);
            && w.issued == v.issued
            && (key in w.jtiBlacklist <==> key in v.jtiBlacklist && v.jtiBlacklist[key] >= Seconds(now))
            && (key in w.jtiBlacklist ==> w.jtiBlacklist[key] == v.jtiBlacklist[key])
            && (key in w.oauthStates <==> key in v.oauthStates && now - v.oauthStates[key] <= 300000)
            && (key in w.oauthStates ==> w.oauthStates[key] == v.oauthStates[key])
  {}

  // ---------------------------------------------------------------- live tokens

  /** Tokens signed and not in the given set of retired ones. */
  function Live(v: Vault, retired: set<string>): set<string> { v.issued.Keys - retired }

  function Accepted(v: Vault, now: int): set<string> {
    set j | j in v.issued && Verify(v, j, now).Some?
  }

  /** The revocation list remembers every retired token for as long as the token could still verify. */
  ghost predicate Remembers(v: Vault, retired: set<string>, clock: int) {
    && retired <= v.issued.Keys
    && v.jtiBlacklist.Keys <= retired
    && (forall j | j in v.jtiBlacklist :: v.jtiBlacklist[j] == v.issued[j].exp)
    && (forall j | j in retired :: j in v.jtiBlacklist || v.issued[j].exp < Seconds(clock))
  }

  /** A token that verifies has not been retired, whatever has been swept since. */
  lemma VerifiedIsLive(v: Vault, retired: set<string>, clock: int, token: string, now: int)
    requires Remembers(v, retired, clock) && now >= clock
    ensures Verify(v, token, now).Some? ==> token in Live(v, retired)
  {}

  lemma LaterRemembers(v: Vault, retired: set<string>, clock: int, now: int)
    requires Remembers(v, retired, clock) && clock <= now
    ensures Remembers(v, retired, now)
  {}

  lemma CleanupRemembers(v: Vault, retired: set<string>, clock: int, now: int)
    requires Remembers(v, retired, clock) && clock <= now
    ensures Remembers(AfterCleanup(v, now), retired, now)
  {}

  lemma SignRemembers(v: Vault, retired: set<string>, clock: int, jti: string, m: string, d: string, c: string, exp: int)
    requires Remembers(v, retired, clock) && jti !in v.issued
    ensures Remembers(Sign(v, jti, m, d, c, exp), retired, clock)
    ensures Live(Sign(v, jti, m, d, c, exp), retired) == Live(v, retired) + {jti}
    ensures |Live(Sign(v, jti, m, d, c, exp), retired)| == |Live(v, retired)| + 1
  {
    assert Live(Sign(v, jti, m, d, c, exp), retired) == Live(v, retired) + {jti};
  }

  lemma RevokeRemembers(v: Vault, retired: set<string>, clock: int, token: string)
    requires Remembers(v, retired, clock) && token in Live(v, retired)
    ensures Remembers(Blacklist(v, token, v.issued[token].exp), retired + {token}, clock)
    ensures Live(Blacklist(v, token, v.issued[token].exp), retired + {token}) == Live(v, retired) - {token}
    ensures |Live(Blacklist(v, token, v.issued[token].exp), retired + {token})| == |Live(v, retired)| - 1
  {
    assert Live(Blacklist(v, token, v.issued[token].exp), retired + {token}) == Live(v, retired) - {token};
  }

  /** Revoking one accepted token and signing a new one: the accepted set changes by exactly those two. */
  lemma RenewalIsOneForOne(v: Vault, retired: set<string>, clock: int, token: string, jti: string, exp: int, now: int)
    requires Remembers(v, retired, clock) && now >= clock && jti !in v.issued && token in Accepted(v, now)
    ensures var u := v.issued[token];
            var v' := Sign(Blacklist(v, token, u.exp), jti, u.memberId, u.domain, u.clientEndpoint, exp);
            Accepted(v', now) == Accepted(v, now) - {token} + (if exp > Seconds(now) then {jti} else {})
  {
    var u := v.issued[token];
    var v' := Sign(Blacklist(v, token, u.exp), jti, u.memberId, u.domain, u.clientEndpoint, exp);
    forall j ensures j in Accepted(v', now) <==> (j in Accepted(v, now) && j != token) || (j == jti && exp > Seconds(now)) {
      if j != jti && j != token { assert Verify(v', j, now) == Verify(v, j, now); }
    }
  }

  // ---------------------------------------------------------------- sweeps cannot be observed

  /** What sweeping may have removed: revocations of expired tokens and states too old to be used. */
  ghost predicate SweptOf(swept: Vault, full: Vault, clock: int) {
    && swept.issued == full.issued
    && (forall j :: Lookup(swept.jtiBlacklist, j) == Lookup(full.jtiBlacklist, j) ||
                    (j !in swept.jtiBlacklist && j in full.jtiBlacklist && full.jtiBlacklist[j] < Seconds(clock)))
    && (forall s :: Lookup(swept.oauthStates, s) == Lookup(full.oauthStates, s) ||
                    (s !in swept.oauthStates && s in full.oauthStates && full.oauthStates[s] < clock - STATE_EXPIRY_MS))
  }

  /** Revocations are kept at least as long as the token they revoke. */
  ghost predicate RevocationsOutliveTokens(v: Vault) {
    forall j | j in v.jtiBlacklist && j in v.issued :: v.jtiBlacklist[j] >= v.issued[j].exp
  }

  /** The relation between a swept and a full vault, with what the full one needs to stay sound. */
  ghost predicate Unobserved(swept: Vault, full: Vault, clock: int) {
    SweptOf(swept, full, clock) && full.jtiBlacklist.Keys <= full.issued.Keys && RevocationsOutliveTokens(full)
  }

  lemma LaterUnobserved(swept: Vault, full: Vault, clock: int, now: int)
    requires Unobserved(swept, full, clock) && clock <= now
    ensures Unobserved(swept, full, now)
  {
    forall j ensures Lookup(swept.jtiBlacklist, j) == Lookup(full.jtiBlacklist, j) ||
                    (j !in swept.jtiBlacklist && j in full.jtiBlacklist && full.jtiBlacklist[j] < Seconds(now)) {
      assert Lookup(swept.jtiBlacklist, j) == Lookup(full.jtiBlacklist, j) || j !in swept.jtiBlacklist;
    }
    forall s ensures Lookup(swept.oauthStates, s) == Lookup(full.oauthStates, s) ||
                    (s !in swept.oauthStates && s in full.oauthStates && full.oauthStates[s] < now - STATE_EXPIRY_MS) {
      assert Lookup(swept.oauthStates, s) == Lookup(full.oauthStates, s) || s !in swept.oauthStates;
    }
  }

  lemma GenerateUnobserved(swept: Vault, full: Vault, clock: int, state: string, at: int)
    requires Unobserved(swept, full, clock)
    ensures Unobserved(GenerateState(swept, state, at), GenerateState(full, state, at), clock)
  {
    var s', f' := GenerateState(swept, state, at), GenerateState(full, state, at);
    forall s ensures Lookup(s'.oauthStates, s) == Lookup(f'.oauthStates, s) ||
                    (s !in s'.oauthStates && s in f'.oauthStates && f'.oauthStates[s] < clock - STATE_EXPIRY_MS) {
      assert Lookup(swept.oauthStates, s) == Lookup(full.oauthStates, s) || s !in swept.oauthStates;
    }
  }

  lemma SignUnobserved(swept: Vault, full: Vault, clock: int, jti: string, m: string, d: string, c: string, exp: int)
    requires Unobserved(swept, full, clock) && jti !in full.issued
    ensures Unobserved(Sign(swept, jti, m, d, c, exp), Sign(full, jti, m, d, c, exp), clock)
  {}

  lemma BlacklistUnobserved(swept: Vault, full: Vault, clock: int, jti: string)
    requires Unobserved(swept, full, clock) && jti in full.issued
    ensures Unobserved(Blacklist(swept, jti, full.issued[jti].exp), Blacklist(full, jti, full.issued[jti].exp), clock)
  {
    var e := full.issued[jti].exp;
    var s', f' := Blacklist(swept, jti, e), Blacklist(full, jti, e);
    forall j ensures Lookup(s'.jtiBlacklist, j) == Lookup(f'.jtiBlacklist, j) ||
                    (j !in s'.jtiBlacklist && j in f'.jtiBlacklist && f'.jtiBlacklist[j] < Seconds(clock)) {
      assert Lookup(swept.jtiBlacklist, j) == Lookup(full.jtiBlacklist, j) || j !in swept.jtiBlacklist;
    }
  }

  lemma SweepIsSweptOf(swept: Vault, full: Vault, clock: int, now: int)
    requires SweptOf(swept, full, clock) && clock <= now
    ensures SweptOf(AfterCleanup(swept, now), full, now)
  {
    forall j ensures Lookup(AfterCleanup(swept, now).jtiBlacklist, j) == Lookup(full.jtiBlacklist, j) ||
                    (j !in AfterCleanup(swept, now).jtiBlacklist && j in full.jtiBlacklist && full.jtiBlacklist[j] < Seconds(now)) {
      assert Lookup(swept.jtiBlacklist, j) == Lookup(full.jtiBlacklist, j) || j !in swept.jtiBlacklist;
    }
    forall s ensures Lookup(AfterCleanup(swept, now).oauthStates, s) == Lookup(full.oauthStates, s) ||
                    (s !in AfterCleanup(swept, now).oauthStates && s in full.oauthStates && full.oauthStates[s] < now - STATE_EXPIRY_MS) {
      assert Lookup(swept.oauthStates, s) == Lookup(full.oauthStates, s) || s !in swept.oauthStates;
    }
  }

  /** A swept vault gives the answers of the full one, for tokens and for states. */
  lemma SweptAnswersTheSame(swept: Vault, full: Vault, clock: int, now: int, token: string, state: string)
    requires SweptOf(swept, full, clock) && RevocationsOutliveTokens(full) && clock <= now
    ensures Verify(swept, token, now) == Verify(full, token, now)
    ensures ValidateState(swept, state, now).1 == ValidateState(full, state, now).1
    ensures SweptOf(ValidateState(swept, state, now).0, ValidateState(full, state, now).0, clock)
  {
    assert Lookup(swept.jtiBlacklist, token) == Lookup(full.jtiBlacklist, token) || token !in swept.jtiBlacklist;
    assert Lookup(swept.oauthStates, state) == Lookup(full.oauthStates, state) || state !in swept.oauthStates;
    var s', f' := ValidateState(swept, state, now).0, ValidateState(full, state, now).0;
    assert forall j :: Lookup(s'.jtiBlacklist, j) == Lookup(swept.jtiBlacklist, j) && Lookup(f'.jtiBlacklist, j) == Lookup(full.jtiBlacklist, j);
    forall s ensures Lookup(s'.oauthStates, s) == Lookup(f'.oauthStates, s) ||
                    (s !in s'.oauthStates && s in f'.oauthStates && f'.oauthStates[s] < clock - STATE_EXPIRY_MS) {
      assert Lookup(swept.oauthStates, s) == Lookup(full.oauthStates, s) || s !in swept.oauthStates;
    }
  }

  lemma RenewUnobserved(swept: Vault, full: Vault, now: int, token: string, jti: string, exp: int)
    requires Unobserved(swept, full, now) && jti !in full.issued
    ensures Renew(swept, token, jti, exp, now).1 == Renew(full, token, jti, exp, now).1
    ensures Unobserved(Renew(swept, token, jti, exp, now).0, Renew(full, token, jti, exp, now).0, now)
  {
    SweptAnswersTheSame(swept, full, now, now, token, "");
    if Verify(full, token, now).Some? {
      var u := full.issued[token];
      BlacklistUnobserved(swept, full, now, token);
      SignUnobserved(Blacklist(swept, token, u.exp), Blacklist(full, token, u.exp), now, jti, u.memberId, u.domain, u.clientEndpoint, exp);
    }
  }

  lemma RevokeUnobserved(swept: Vault, full: Vault, now: int, token: string)
    requires Unobserved(swept, full, now)
    ensures Revoke(swept, token, now).1 == Revoke(full, token, now).1
    ensures Unobserved(Revoke(swept, token, now).0, Revoke(full, token, now).0, now)
  {
    SweptAnswersTheSame(swept, full, now, now, token, "");
    if Verify(full, token, now).Some? { BlacklistUnobserved(swept, full, now, token); }
  }

  // ---------------------------------------------------------------- the module

  class Tokens {
    const jwtExpirySeconds: int
    var jtiBlacklist: map<string, int>
    var oauthStateStore: map<string, int>
    /** The tokens the secret has signed, which is what signature verification recognises. */
    var issued: map<string, Claims>

    constructor (jwtExpirySeconds: int)
      ensures View() == EMPTY && this.jwtExpirySeconds == jwtExpirySeconds
    {
      this.jwtExpirySeconds := jwtExpirySeconds;
      jtiBlacklist, oauthStateStore, issued := map[], map[], map[];
    }

    ghost function View(): Vault
      reads this
    {
      Vault(jtiBlacklist, oauthStateStore, issued)
    }

    method GenerateOAuthState(random: string, now: int) returns (state: string)
      modifies this`oauthStateStore
      ensures state == random && View() == GenerateState(old(View()), random, now)
    {
      state := random;
      oauthStateStore := oauthStateStore[state := now];
    }

    method ValidateOAuthState(state: string, now: int) returns (ok: bool)
      modifies this`oauthStateStore
      ensures (View(), ok) == ValidateState(old(View()), state, now)
    {
      if state !in oauthStateStore {
        return false;
      }
      var createdAt := oauthStateStore[state];
      oauthStateStore := oauthStateStore - {state};
      var elapsed := now - createdAt;
      if elapsed > STATE_EXPIRY_MS {
        return false;
      }
      ok := true;
    }

    method SignJwt(uuid: string, memberId: string, domain: string, clientEndpoint: string, now: int) returns (expiresAt: int)
      modifies this`issued
      ensures expiresAt == Seconds(now) + jwtExpirySeconds
      ensures View() == Sign(old(View()), uuid, memberId, domain, clientEndpoint, expiresAt)
    {
      expiresAt := Seconds(now) + jwtExpirySeconds;
      issued := issued[uuid := Claims(memberId, domain, clientEndpoint, expiresAt)];
    }

    method VerifyJwt(token: string, now: int) returns (payload: Option<Claims>)
      ensures payload == Verify(View(), token, now)
    {
      if token !in issued || Seconds(now) >= issued[token].exp {
        return None;
      }
      if token in jtiBlacklist {
        return None;
      }
      payload := Some(issued[token]);
    }

    method BlacklistJwt(jti: string, exp: Option<int>, now: int)
      modifies this`jtiBlacklist
      ensures View() == Blacklist(old(View()), jti, if exp.Some? then exp.value else Seconds(now) + jwtExpirySeconds)
    {
      var effectiveExp := if exp.Some? then exp.value else Seconds(now) + jwtExpirySeconds;
      jtiBlacklist := jtiBlacklist[jti := effectiveExp];
    }

    /** The cleanup timer: both sweeps, key by key. */
    method CleanupTick(now: int)
      modifies this
      ensures View() == AfterCleanup(old(View()), now)
    {
      jtiBlacklist := WithoutBelow(jtiBlacklist, Seconds(now));
      oauthStateStore := WithoutBelow(oauthStateStore, now - STATE_EXPIRY_MS);
    }
  }

  method WithoutBelow(m: map<string, int>, limit: int) returns (left: map<string, int>)
    ensures left == map k | k in m && !(m[k] < limit) :: m[k]
  {
    left := m;
    var todo := m.Keys;
    while todo != {}
      invariant todo <= m.Keys
      invariant left.Keys == set k | k in m && (k in todo || !(m[k] < limit))
      invariant forall k | k in left :: left[k] == m[k]
      decreases todo
    {
      var key :| key in todo;
      todo := todo - {key};
      if left[key] < limit {
        left := left - {key};
      }
    }
  }
}
