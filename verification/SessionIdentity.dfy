/**
 Whom a session belongs to. An observer notes, from events and answers alone, what each callback brought,
 what the token endpoint granted it, and which token was signed for it or refreshed from it; in every run the
 tokens carry exactly that identity and the sessions handed to pollers hold tokens that work.
 */
module SessionIdentity {
  import opened Common
  import opened Text
  import opened TokenService
  import opened AuthRoutes
  import PortalHosts

  /** The parameters of a callback. */
  datatype Arrival = Arrival(state: string, domain: string, memberId: string)

  /** A callback with what the token endpoint granted it. */
  datatype Origin = Origin(arrival: Arrival, grant: Grant)

  datatype Book = Book(arrivals: map<nat, Arrival>, settled: map<nat, Origin>, origins: map<string, Origin>, signedAt: map<string, int>)

  const BLANK := Book(map[], map[], map[], map[])

  function Note(b: Book, e: Event, answer: Answer): Book {
    match e
    case CallbackArrives(id, _, state, domain, memberId, _) =>
      if answer == Nothing then b.(arrivals := b.arrivals[id := Arrival(state, domain, memberId)]) else b
    case ExchangeReturns(id, grant, _) =>
      if answer == Nothing && id in b.arrivals && id !in b.settled
      then b.(settled := b.settled[id := Origin(b.arrivals[id], grant)]) else b
    case TokensStored(id, jti, now) =>
      if answer == CallbackDone && id in b.settled
      then b.(origins := b.origins[jti := b.settled[id]], signedAt := b.signedAt[jti := now]) else b
    case Refresh(token, jti, now) =>
      if answer.Renewed? && token in b.origins
      then b.(origins := b.origins[jti := b.origins[token]], signedAt := b.signedAt[jti := now]) else b
    case _ => b
  }

  function Observe(b: Book, w: World, cfg: Config, es: seq<Event>): Book
    decreases |es|
  {
    if es == [] then b else Observe(Note(b, es[0], Respond(w.server, cfg, es[0]).1), Next(w, cfg, es[0]), cfg, es[1..])
  }

  /** Whom a callback and its grant identify: its own parameter, or the grant's, or the fallback. */
  ghost function MemberOf(a: Arrival, g: Grant): string {
    Trim(if a.memberId != "" then a.memberId else if g.memberId != "" then g.memberId else g.userId)
  }

  ghost function PortalOf(a: Arrival, g: Grant, cfg: Config): string {
    ToLower(Trim(if a.domain != "" then a.domain else if g.domain != "" then g.domain else cfg.defaultPortal))
  }

  ghost function EndpointOf(g: Grant, portal: string): string {
    if g.clientEndpoint != "" then g.clientEndpoint else "https://" + portal + "/rest/"
  }

  ghost predicate Identifies(o: Origin, cfg: Config, claims: Claims) {
    && claims.memberId == MemberOf(o.arrival, o.grant) != ""
    && claims.domain == PortalOf(o.arrival, o.grant, cfg)
    && claims.clientEndpoint == EndpointOf(o.grant, claims.domain)
  }

  // ---------------------------------------------------------------- invariant

  ghost predicate CallbackKnown(c: Callback, b: Book, cfg: Config, id: nat) {
    match c
    case Exchanging(state, _, domain, memberId) =>
      id !in b.settled && Lookup(b.arrivals, id) == Some(Arrival(state, domain, memberId))
    case Storing(state, _, domain, memberId, clientEndpoint) =>
      id in b.settled && b.settled[id].arrival.state == state
      && Identifies(b.settled[id], cfg, Claims(memberId, domain, clientEndpoint, 0))
  }

  ghost predicate CallbacksKnown(w: World, b: Book, cfg: Config) {
    && (forall id | id in w.server.callbacks :: id in w.history.callbackIds && CallbackKnown(w.server.callbacks[id], b, cfg, id))
    && b.arrivals.Keys <= w.history.callbackIds && b.settled.Keys <= w.history.callbackIds
  }

  ghost predicate TokenKnown(v: Vault, b: Book, cfg: Config, j: string) {
    && j in v.issued && j in b.origins && j in b.signedAt
    && Identifies(b.origins[j], cfg, v.issued[j])
    && v.issued[j].exp == Seconds(b.signedAt[j]) + cfg.jwtExpirySeconds
  }

  /** The session's token is the one signed for the callback of that state, and the session says what it claims. */
  ghost predicate SessionKnown(v: Vault, b: Book, state: string, session: Session) {
    && session.jwt in v.issued && session.jwt in b.origins && b.origins[session.jwt].arrival.state == state
    && v.issued[session.jwt].memberId == session.memberId
    && v.issued[session.jwt].domain == session.domain
    && v.issued[session.jwt].exp == session.expiresAt
  }

  ghost predicate SessionsKnown(w: World, b: Book) {
    && (forall s | s in w.server.pending && w.server.pending[s].session.Some? ::
          SessionKnown(w.server.vault, b, s, w.server.pending[s].session.value))
    && (forall i | 0 <= i < |w.history.delivered| ::
          SessionKnown(w.server.vault, b, w.history.delivered[i].state, w.history.delivered[i].session))
  }

  ghost predicate Known(w: World, b: Book, cfg: Config) {
    && CallbacksKnown(w, b, cfg)
    && (forall j | j in w.server.vault.issued :: TokenKnown(w.server.vault, b, cfg, j))
    && SessionsKnown(w, b)
  }

  /** A token signed under a new name leaves everything known about the others. */
  lemma {:induction false} SignedKeepsKnown(w: World, w': World, b: Book, b': Book, cfg: Config, jti: string, claims: Claims)
    requires Known(w, b, cfg) && jti !in w.server.vault.issued
    requires w'.server.vault.issued == w.server.vault.issued[jti := claims]
    requires jti in b'.origins && b'.origins == b.origins[jti := b'.origins[jti]]
    requires jti in b'.signedAt && b'.signedAt == b.signedAt[jti := b'.signedAt[jti]]
    requires TokenKnown(w'.server.vault, b', cfg, jti)
    ensures forall j | j in w'.server.vault.issued :: TokenKnown(w'.server.vault, b', cfg, j)
    ensures forall s, x | SessionKnown(w.server.vault, b, s, x) :: SessionKnown(w'.server.vault, b', s, x)
  {
    forall j | j in w'.server.vault.issued ensures TokenKnown(w'.server.vault, b', cfg, j) {
      if j != jti { assert TokenKnown(w.server.vault, b, cfg, j); }
    }
  }

  lemma {:induction false} FewerCallbacksKnown(w: World, w': World, b: Book, b': Book, cfg: Config)
    requires CallbacksKnown(w, b, cfg) && w'.history.callbackIds == w.history.callbackIds
    requires b'.arrivals == b.arrivals && b'.settled == b.settled
    requires forall id | id in w'.server.callbacks :: id in w.server.callbacks && w'.server.callbacks[id] == w.server.callbacks[id]
    ensures CallbacksKnown(w', b', cfg)
  {
    forall x | x in w'.server.callbacks ensures CallbackKnown(w'.server.callbacks[x], b', cfg, x) {
      assert CallbackKnown(w.server.callbacks[x], b, cfg, x);
    }
  }

  /** Steps that sign nothing and bring no session. */
  lemma {:induction false} QuietKeepsKnown(w: World, w': World, b: Book, cfg: Config)
    requires Known(w, b, cfg) && w'.server.vault.issued == w.server.vault.issued
    requires w.history.callbackIds <= w'.history.callbackIds
    requires forall id | id in w'.server.callbacks :: id in w.server.callbacks && w'.server.callbacks[id] == w.server.callbacks[id]
    requires forall s | s in w'.server.pending && w'.server.pending[s].session.Some? ::
               s in w.server.pending && w'.server.pending[s] == w.server.pending[s]
    requires forall i | 0 <= i < |w'.history.delivered| ::
               SessionKnown(w.server.vault, b, w'.history.delivered[i].state, w'.history.delivered[i].session)
    ensures Known(w', b, cfg)
  {
    forall j | j in w'.server.vault.issued ensures TokenKnown(w'.server.vault, b, cfg, j) {
      assert TokenKnown(w.server.vault, b, cfg, j);
    }
    forall s, x | SessionKnown(w.server.vault, b, s, x) ensures SessionKnown(w'.server.vault, b, s, x) {}
  }

  lemma {:induction false} ArrivalKnown(w: World, b: Book, cfg: Config, e: Event)
    requires Known(w, b, cfg) && Enabled(w, e) && e.CallbackArrives?
    ensures Known(Next(w, cfg, e), Note(b, e, Respond(w.server, cfg, e).1), cfg)
  {
    var w', b' := Next(w, cfg, e), Note(b, e, Respond(w.server, cfg, e).1);
    if Respond(w.server, cfg, e).1 == Nothing {
      assert e.id !in b.settled;
      forall j | j in w'.server.vault.issued ensures TokenKnown(w'.server.vault, b', cfg, j) {
        assert TokenKnown(w.server.vault, b, cfg, j);
      }
      forall s, x | SessionKnown(w.server.vault, b, s, x) ensures SessionKnown(w'.server.vault, b', s, x) {}
      assert CallbacksKnown(w', b', cfg);
    } else {
      QuietKeepsKnown(w, w', b, cfg);
    }
  }

  /** The exchange settles who the callback is for, or ends it. */
  lemma {:induction false} SettlementIdentifies(s: Server, cfg: Config, id: nat, grant: Grant)
    requires id in s.callbacks && s.callbacks[id].Exchanging?
    ensures var c, (t, answer) := s.callbacks[id], HandleExchange(s, cfg, id, grant);
            if answer == Nothing
            then && id in t.callbacks && t == s.(callbacks := s.callbacks[id := t.callbacks[id]])
                 && t.callbacks[id].Storing? && t.callbacks[id].state == c.state
                 && Identifies(Origin(Arrival(c.state, c.domain, c.memberId), grant), cfg,
                               Claims(t.callbacks[id].memberId, t.callbacks[id].domain, t.callbacks[id].clientEndpoint, 0))
            else t == s.(callbacks := s.callbacks - {id})
  {}

  lemma {:induction false} SettledKnown(w: World, w': World, b: Book, b': Book, cfg: Config, id: nat, c: Callback)
    requires Known(w, b, cfg) && id in w.history.callbackIds && id !in b.settled
    requires b' == b.(settled := b'.settled) && id in b'.settled && b'.settled == b.settled[id := b'.settled[id]]
    requires w'.history == w.history && w'.server == w.server.(callbacks := w.server.callbacks[id := c])
    requires CallbackKnown(c, b', cfg, id)
    ensures Known(w', b', cfg)
  {
    forall j | j in w'.server.vault.issued ensures TokenKnown(w'.server.vault, b', cfg, j) {
      assert TokenKnown(w.server.vault, b, cfg, j);
    }
    forall s, x | SessionKnown(w.server.vault, b, s, x) ensures SessionKnown(w'.server.vault, b', s, x) {}
    forall x | x in w'.server.callbacks ensures CallbackKnown(w'.server.callbacks[x], b', cfg, x) {
      if x != id { assert CallbackKnown(w.server.callbacks[x], b, cfg, x); }
    }
  }

  lemma {:induction false} StrayAnswerKnown(w: World, w': World, b: Book, b': Book, cfg: Config, id: nat)
    requires Known(w, b, cfg) && (id !in w.server.callbacks || w.server.callbacks[id].Storing?)
    requires w'.server == w.server && w'.history == w.history && id in w.history.callbackIds
    requires b' == b || (id !in b.settled && id in b'.settled && b' == b.(settled := b.settled[id := b'.settled[id]]))
    ensures Known(w', b', cfg)
  {
    forall j | j in w'.server.vault.issued ensures TokenKnown(w'.server.vault, b', cfg, j) {
      assert TokenKnown(w.server.vault, b, cfg, j);
    }
    forall s, x | SessionKnown(w.server.vault, b, s, x) ensures SessionKnown(w'.server.vault, b', s, x) {}
    forall x | x in w'.server.callbacks ensures CallbackKnown(w'.server.callbacks[x], b', cfg, x) {
      assert CallbackKnown(w.server.callbacks[x], b, cfg, x);
    }
  }

  lemma {:induction false} ExchangeKnown(w: World, b: Book, cfg: Config, e: Event)
    requires Known(w, b, cfg) && Enabled(w, e) && e.ExchangeReturns?
    ensures Known(Next(w, cfg, e), Note(b, e, Respond(w.server, cfg, e).1), cfg)
  {
    var w', b' := Next(w, cfg, e), Note(b, e, Respond(w.server, cfg, e).1);
    if e.id in w.server.callbacks && w.server.callbacks[e.id].Exchanging? {
      assert CallbackKnown(w.server.callbacks[e.id], b, cfg, e.id);
      SettlementIdentifies(w.server, cfg, e.id, e.grant);
      if HandleExchange(w.server, cfg, e.id, e.grant).1 == Nothing {
        SettledKnown(w, w', b, b', cfg, e.id, w'.server.callbacks[e.id]);
      } else {
        QuietKeepsKnown(w, w', b, cfg);
      }
    } else if e.id in b.arrivals {
      StrayAnswerKnown(w, w', b, b', cfg, e.id);
    } else {
      QuietKeepsKnown(w, w', b, cfg);
    }
  }

  lemma {:induction false} StoredKnown(w: World, b: Book, cfg: Config, e: Event)
    requires Known(w, b, cfg) && Enabled(w, e) && e.TokensStored?
    ensures Known(Next(w, cfg, e), Note(b, e, Respond(w.server, cfg, e).1), cfg)
  {
    var w', b' := Next(w, cfg, e), Note(b, e, Respond(w.server, cfg, e).1);
    if e.id in w.server.callbacks && w.server.callbacks[e.id].Storing? {
      var c := w.server.callbacks[e.id];
      assert CallbackKnown(c, b, cfg, e.id);
      SignedKeepsKnown(w, w', b, b', cfg, e.jti, w'.server.vault.issued[e.jti]);
      assert SessionKnown(w'.server.vault, b', c.state, w'.server.pending[c.state].session.value);
      forall s | s in w'.server.pending && w'.server.pending[s].session.Some?
        ensures SessionKnown(w'.server.vault, b', s, w'.server.pending[s].session.value)
      {
        if s != c.state { assert SessionKnown(w.server.vault, b, s, w.server.pending[s].session.value); }
      }
      FewerCallbacksKnown(w, w', b, b', cfg);
    } else {
      QuietKeepsKnown(w, w', b, cfg);
    }
  }

  /** A token refreshed is signed for the one it replaces. */
  lemma {:induction false} RefreshKnown(w: World, b: Book, cfg: Config, e: Event)
    requires Known(w, b, cfg) && Enabled(w, e) && e.Refresh?
    ensures Known(Next(w, cfg, e), Note(b, e, Respond(w.server, cfg, e).1), cfg)
  {
    var w', b' := Next(w, cfg, e), Note(b, e, Respond(w.server, cfg, e).1);
    if Respond(w.server, cfg, e).1.Renewed? {
      assert TokenKnown(w.server.vault, b, cfg, e.token);
      SignedKeepsKnown(w, w', b, b', cfg, e.jti, w'.server.vault.issued[e.jti]);
      FewerCallbacksKnown(w, w', b, b', cfg);
    } else {
      QuietKeepsKnown(w, w', b, cfg);
    }
  }

  lemma {:induction false} PollKnown(w: World, b: Book, cfg: Config, e: Event)
    requires Known(w, b, cfg) && Enabled(w, e) && e.Poll?
    ensures Known(Next(w, cfg, e), Note(b, e, Respond(w.server, cfg, e).1), cfg)
  {
    QuietKeepsKnown(w, Next(w, cfg, e), b, cfg);
  }

  lemma {:induction false} OtherStepsKnown(w: World, b: Book, cfg: Config, e: Event)
    requires Known(w, b, cfg) && Enabled(w, e)
    requires e.Login? || e.ExchangeFails? || e.SessionTimer? || e.Logout? || e.Authenticate? || e.Cleanup?
    ensures Known(Next(w, cfg, e), Note(b, e, Respond(w.server, cfg, e).1), cfg)
  {
    QuietKeepsKnown(w, Next(w, cfg, e), b, cfg);
  }

  lemma {:induction false} StepKnown(w: World, b: Book, cfg: Config, e: Event)
    requires Known(w, b, cfg) && Enabled(w, e)
    ensures Known(Next(w, cfg, e), Note(b, e, Respond(w.server, cfg, e).1), cfg)
  {
    if e.CallbackArrives? {
      ArrivalKnown(w, b, cfg, e);
    } else if e.ExchangeReturns? {
      ExchangeKnown(w, b, cfg, e);
    } else if e.TokensStored? {
      StoredKnown(w, b, cfg, e);
    } else if e.Refresh? {
      RefreshKnown(w, b, cfg, e);
    } else if e.Poll? {
      PollKnown(w, b, cfg, e);
    } else {
      OtherStepsKnown(w, b, cfg, e);
    }
  }

  lemma {:induction false} RunKnown(w: World, b: Book, cfg: Config, es: seq<Event>)
    requires Known(w, b, cfg) && ValidRun(w, cfg, es)
    ensures Known(Run(w, cfg, es), Observe(b, w, cfg, es), cfg)
    decreases |es|
  {
    if es != [] {
      StepKnown(w, b, cfg, es[0]);
      RunKnown(Next(w, cfg, es[0]), Note(b, es[0], Respond(w.server, cfg, es[0]).1), cfg, es[1..]);
    }
  }

  // ---------------------------------------------------------------- what sessions and tokens are worth

  /**
   In every run, a session handed to a poller holds the token signed for the callback of its own state, says
   what that token claims, and its token verifies with those claims exactly until it expires or is revoked.
   */
  lemma {:induction false} DeliveredSessionWorks(cfg: Config, es: seq<Event>, clock: int, i: nat, now: int)
    requires ValidRun(Start(clock), cfg, es) && now >= Run(Start(clock), cfg, es).clock
    requires i < |Run(Start(clock), cfg, es).history.delivered|
    ensures var w, b := Run(Start(clock), cfg, es), Observe(BLANK, Start(clock), cfg, es);
            var d := w.history.delivered[i];
            && d.session.jwt in b.origins && b.origins[d.session.jwt].arrival.state == d.state
            && d.session.jwt in b.signedAt && d.session.expiresAt == Seconds(b.signedAt[d.session.jwt]) + cfg.jwtExpirySeconds
            && exists endpoint ::
                 var claims := Claims(d.session.memberId, d.session.domain, endpoint, d.session.expiresAt);
                 && Identifies(b.origins[d.session.jwt], cfg, claims)
                 && Verify(w.server.vault, d.session.jwt, now)
                    == if Seconds(now) < d.session.expiresAt && d.session.jwt !in w.history.revoked then Some(claims) else None
  {
    var w, b := Run(Start(clock), cfg, es), Observe(BLANK, Start(clock), cfg, es);
    RunKnown(Start(clock), BLANK, cfg, es);
    RunKeepsCount(Start(clock), cfg, es);
    var d := w.history.delivered[i];
    assert SessionKnown(w.server.vault, b, d.state, d.session) && TokenKnown(w.server.vault, b, cfg, d.session.jwt);
    VerifiesUnlessRevoked(w.server.vault, w.history.revoked, w.clock, d.session.jwt, now);
    var endpoint := w.server.vault.issued[d.session.jwt].clientEndpoint;
    assert w.server.vault.issued[d.session.jwt] == Claims(d.session.memberId, d.session.domain, endpoint, d.session.expiresAt);
  }

  lemma {:induction false} VerifiesUnlessRevoked(v: Vault, retired: set<string>, clock: int, j: string, now: int)
    requires Remembers(v, retired, clock) && now >= clock && j in v.issued
    ensures Verify(v, j, now) == if Seconds(now) < v.issued[j].exp && j !in retired then Some(v.issued[j]) else None
  {}

  /** In every run, a token that verifies carries the identity of the callback its chain of refreshes started from. */
  lemma {:induction false} TokensKeepTheirOrigin(cfg: Config, es: seq<Event>, clock: int, j: string, now: int)
    requires ValidRun(Start(clock), cfg, es)
    requires Verify(Run(Start(clock), cfg, es).server.vault, j, now).Some?
    ensures var w, b := Run(Start(clock), cfg, es), Observe(BLANK, Start(clock), cfg, es);
            var claims := Verify(w.server.vault, j, now).value;
            && j in b.origins && j in b.signedAt && Identifies(b.origins[j], cfg, claims)
            && claims.exp == Seconds(b.signedAt[j]) + cfg.jwtExpirySeconds
  {
    RunKnown(Start(clock), BLANK, cfg, es);
    assert TokenKnown(Run(Start(clock), cfg, es).server.vault, Observe(BLANK, Start(clock), cfg, es), cfg, j);
  }

  /** A refresh that is answered gives a token for the same member, portal and endpoint, good for a full lifetime. */
  lemma {:induction false} RefreshKeepsIdentity(w: World, cfg: Config, token: string, jti: string, now: int, later: int)
    requires CountInv(w) && Enabled(w, Refresh(token, jti, now)) && later >= now
    ensures var before, answer := Respond(w.server, cfg, Authenticate(token, now)).1, Respond(w.server, cfg, Refresh(token, jti, now)).1;
            var after := Next(w, cfg, Refresh(token, jti, now)).server;
            && (answer.Renewed? <==> before.Authenticated?)
            && (answer.Renewed? ==>
                  && answer == Renewed(jti, Seconds(now) + cfg.jwtExpirySeconds)
                  && Respond(after, cfg, Authenticate(token, later)).1 == Unauthorized
                  && Respond(after, cfg, Authenticate(jti, later)).1
                     == if Seconds(later) < answer.expiresAt
                        then Authenticated(before.claims.(exp := answer.expiresAt)) else Unauthorized)
  {}

  /** A logout is answered exactly for a token that authenticates, and retires that token and no other. */
  lemma {:induction false} LogoutRetiresOne(w: World, cfg: Config, token: string, other: string, now: int, later: int)
    requires CountInv(w) && Enabled(w, Logout(token, now)) && later >= now
    ensures var before, answer := Respond(w.server, cfg, Authenticate(token, now)).1, Respond(w.server, cfg, Logout(token, now)).1;
            var after := Next(w, cfg, Logout(token, now)).server;
            && (answer.LoggedOut? <==> before.Authenticated?) && (answer.LoggedOut? || answer == Unauthorized)
            && (answer.LoggedOut? ==> Respond(after, cfg, Authenticate(token, later)).1 == Unauthorized)
            && (other != token ==> Respond(after, cfg, Authenticate(other, later)).1
                                   == Respond(w.server, cfg, Authenticate(other, later)).1)
  {}

  // ---------------------------------------------------------------- what each route answers

  /** A callback goes on to the token endpoint exactly when its state was made at most 300 s ago and is still pending. */
  lemma {:induction false} CallbackInTime(s: Server, cfg: Config, e: Event)
    requires e.CallbackArrives?
    ensures var (t, answer) := Respond(s, cfg, e);
            && (answer == Nothing <==>
                  && e.code != "" && e.state != "" && e.state in s.vault.oauthStates
                  && e.at - s.vault.oauthStates[e.state] <= 300000 && e.state in s.pending)
            && (answer == Nothing || answer == CallbackRefused(400))
            && (e.code != "" && e.state != "" ==> e.state !in t.vault.oauthStates)
            && (forall x | x != e.state :: Lookup(t.vault.oauthStates, x) == Lookup(s.vault.oauthStates, x))
  {}

  /** Why an exchange ends a callback: a portal not served, one other than the login's, or nobody identified, in this order. */
  lemma {:induction false} ExchangeRefusals(s: Server, cfg: Config, id: nat, grant: Grant, now: int)
    requires id in s.callbacks && s.callbacks[id].Exchanging?
    ensures var c, answer := s.callbacks[id], Respond(s, cfg, ExchangeReturns(id, grant, now)).1;
            var a := Arrival(c.state, c.domain, c.memberId);
            answer == if !PortalHosts.IsPortalAllowed(PortalOf(a, grant, cfg), cfg.allowed) then CallbackRefused(403)
                      else if PortalOf(a, grant, cfg) != c.portal then CallbackRefused(400)
                      else if MemberOf(a, grant) == "" then CallbackRefused(502)
                      else Nothing
  {
    var c := s.callbacks[id];
    if PortalOf(Arrival(c.state, c.domain, c.memberId), grant, cfg) == "" { assert Trim("") == "" && ToLower("") == ""; }
  }

  /** A callback that never gets its grant ends with the status of a timeout or of a bad gateway. */
  lemma {:induction false} FailedExchange(s: Server, cfg: Config, id: nat, timedOut: bool, now: int)
    ensures Respond(s, cfg, ExchangeFails(id, timedOut, now))
         == (s.(callbacks := s.callbacks - {id}), CallbackRefused(if timedOut then 504 else 502))
  {}

  /** The Bitrix24 tokens stored are the granted ones, for the portal settled, with an hour to live when none is stated. */
  lemma {:induction false} StoredTokens(g: Grant, c: Callback, now: int)
    requires c.Storing?
    ensures var t := GrantedTokens(g, c, now);
            && t.accessToken == g.accessToken && t.refreshToken == g.refreshToken
            && t.domain == c.domain && t.clientEndpoint == c.clientEndpoint
            && (g.expiresIn != 0 ==> t.expiresAt == Seconds(now) + g.expiresIn)
            && (g.expiresIn == 0 ==> t.expiresAt == Seconds(now) + 3600)
  {}

  /** No route waits for another: at any time every poll, answer of the token endpoint, logout and check may come. */
  lemma {:induction false} RoutesAreAlwaysOpen(w: World, e: Event)
    requires e.at >= w.clock
    requires e.Poll? || e.ExchangeReturns? || e.ExchangeFails? || e.Logout? || e.Authenticate? || e.Cleanup?
    ensures Enabled(w, e)
  {}

  // ---------------------------------------------------------------- a login that is completed

  lemma {:induction false} LoginOpens(s: Server, cfg: Config, e: Event, portal: string)
    requires e.Login? && PortalHosts.ResolvePortal(e.requested, cfg.defaultPortal, cfg.allowed) == Ok(portal)
    ensures var (t, answer) := Respond(s, cfg, e);
            && answer == LoginUrl(portal)
            && Lookup(t.pending, e.state) == Some(PendingSession(portal, None))
            && Lookup(t.vault.oauthStates, e.state) == Some(e.at) && Lookup(t.timers, e.state) == Some(e.at + 600000)
            && t.vault.issued == s.vault.issued && t.vault.jtiBlacklist == s.vault.jtiBlacklist
  {}

  lemma {:induction false} RefusedLoginOpensNothing(s: Server, cfg: Config, e: Event)
    requires e.Login? && PortalHosts.ResolvePortal(e.requested, cfg.defaultPortal, cfg.allowed).Err?
    ensures Respond(s, cfg, e) == (s, LoginRefused(PortalHosts.ResolvePortal(e.requested, cfg.defaultPortal, cfg.allowed).error))
  {}

  lemma {:induction false} CallbackGoesOn(s: Server, cfg: Config, e: Event, portal: string)
    requires e.CallbackArrives? && e.code != "" && e.state != ""
    requires Lookup(s.pending, e.state) == Some(PendingSession(portal, None))
    requires e.state in s.vault.oauthStates && e.at - s.vault.oauthStates[e.state] <= 300000
    ensures var t := Respond(s, cfg, e).0;
            && Lookup(t.callbacks, e.id) == Some(Exchanging(e.state, portal, e.domain, e.memberId))
            && t.pending == s.pending && t.vault.issued == s.vault.issued && t.vault.jtiBlacklist == s.vault.jtiBlacklist
  {}

  lemma {:induction false} ExchangeSettles(s: Server, cfg: Config, e: Event, a: Arrival, portal: string)
    requires e.ExchangeReturns? && Lookup(s.callbacks, e.id) == Some(Exchanging(a.state, portal, a.domain, a.memberId))
    requires PortalOf(a, e.grant, cfg) == portal && PortalHosts.IsPortalAllowed(portal, cfg.allowed) && MemberOf(a, e.grant) != ""
    ensures var t := Respond(s, cfg, e).0;
            && Lookup(t.callbacks, e.id) == Some(Storing(a.state, portal, portal, MemberOf(a, e.grant), EndpointOf(e.grant, portal)))
            && t.pending == s.pending && t.vault == s.vault
  {
    ExchangeRefusals(s, cfg, e.id, e.grant, e.at);
    SettlementIdentifies(s, cfg, e.id, e.grant);
  }

  lemma {:induction false} StoredIsReady(s: Server, cfg: Config, e: Event, state: string, portal: string, member: string, endpoint: string)
    requires e.TokensStored? && Lookup(s.callbacks, e.id) == Some(Storing(state, portal, portal, member, endpoint))
    ensures var t := Respond(s, cfg, e).0;
            var exp := Seconds(e.at) + cfg.jwtExpirySeconds;
            && Lookup(t.pending, state) == Some(PendingSession(portal, Some(Session(e.jti, exp, member, portal))))
            && Lookup(t.vault.issued, e.jti) == Some(Claims(member, portal, endpoint, exp))
            && t.vault.jtiBlacklist == s.vault.jtiBlacklist
  {}

  /** Polls wait for a pending login, hand a ready session over once, and know nothing else. */
  lemma {:induction false} PollHandsOverOnce(s: Server, cfg: Config, state: string, now: int)
    ensures var (t, answer) := Respond(s, cfg, Poll(state, now));
            var entry: Option<PendingSession> := if state == "" then None else Lookup(s.pending, state);
            match entry
            case None => (t, answer) == (s, NoSession)
            case Some(PendingSession(_, None)) => (t, answer) == (s, StillPending)
            case Some(PendingSession(_, Some(session))) =>
              && answer == Delivered(session) && t == s.(pending := s.pending - {state})
              && Respond(t, cfg, Poll(state, now)) == (t, NoSession)
  {}

  /**
   A login that is completed works, whatever else the server holds: the poll waits, then hands over the
   session once, and its token authenticates as the member and portal of the login until it expires.
   */
  lemma {:induction false} CompletedLoginWorks(
    s0: Server, cfg: Config, portal: string, login: Event, callback: Event, exchange: Event, stored: Event, now: int)
    requires login.Login? && callback.CallbackArrives? && exchange.ExchangeReturns? && stored.TokensStored?
    requires login.state != "" && PortalHosts.ResolvePortal(login.requested, cfg.defaultPortal, cfg.allowed) == Ok(portal)
    requires callback.code != "" && callback.state == login.state && login.at <= callback.at <= login.at + 300000
    requires exchange.id == callback.id && stored.id == callback.id
    requires stored.jti !in s0.vault.jtiBlacklist
    requires var a := Arrival(callback.state, callback.domain, callback.memberId);
             PortalOf(a, exchange.grant, cfg) == portal && MemberOf(a, exchange.grant) != ""
    ensures var s1 := Respond(s0, cfg, login).0;
            var s2 := Respond(s1, cfg, callback).0;
            var s3 := Respond(s2, cfg, exchange).0;
            var s4 := Respond(s3, cfg, stored).0;
            var (s5, answer) := Respond(s4, cfg, Poll(login.state, now));
            var member := MemberOf(Arrival(callback.state, callback.domain, callback.memberId), exchange.grant);
            var exp := Seconds(stored.at) + cfg.jwtExpirySeconds;
            && Respond(s3, cfg, Poll(login.state, now)) == (s3, StillPending)
            && answer == Delivered(Session(stored.jti, exp, member, portal))
            && Respond(s5, cfg, Authenticate(stored.jti, now)).1
               == (if Seconds(now) < exp
                   then Authenticated(Claims(member, portal, EndpointOf(exchange.grant, portal), exp)) else Unauthorized)
  {
    var a := Arrival(callback.state, callback.domain, callback.memberId);
    PortalHosts.ResolvedPortalIsServed(login.requested, cfg.defaultPortal, cfg.allowed);
    var s1 := Respond(s0, cfg, login).0;
    LoginOpens(s0, cfg, login, portal);
    var s2 := Respond(s1, cfg, callback).0;
    CallbackGoesOn(s1, cfg, callback, portal);
    var s3 := Respond(s2, cfg, exchange).0;
    ExchangeSettles(s2, cfg, exchange, a, portal);
    PollHandsOverOnce(s3, cfg, login.state, now);
    var s4 := Respond(s3, cfg, stored).0;
    StoredIsReady(s3, cfg, stored, a.state, portal, MemberOf(a, exchange.grant), EndpointOf(exchange.grant, portal));
    PollHandsOverOnce(s4, cfg, login.state, now);
    PollKeepsVault(s4, cfg, login.state, now);
    AuthenticatesUntilExpiry(Respond(s4, cfg, Poll(login.state, now)).0, cfg, stored.jti, now);
  }

  lemma PollKeepsVault(s: Server, cfg: Config, state: string, now: int)
    ensures Respond(s, cfg, Poll(state, now)).0.vault == s.vault
  {}

  lemma AuthenticatesUntilExpiry(s: Server, cfg: Config, token: string, now: int)
    ensures Respond(s, cfg, Authenticate(token, now)).1
         == if token in s.vault.issued && token !in s.vault.jtiBlacklist && Seconds(now) < s.vault.issued[token].exp
            then Authenticated(s.vault.issued[token]) else Unauthorized
  {}
}
