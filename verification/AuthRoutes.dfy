/**
 The sign-in routes: login, callback, poll, refresh and logout over one process's memory, with the
 authorization code exchange of section 4.1 of RFC 6749 and its state parameter (section 10.12).

 `Respond` is one synchronous stretch of a handler or timer. `History` is what an observer of the
 whole run remembers; the theorems relate the two over every interleaving.
 */
module AuthRoutes {
  import opened Common
  import opened Text
  import opened PortalHosts
  import opened TokenService
  import Base64
  import TokenStore

  const SESSION_TTL_MS := 600000

  datatype Config = Config(allowed: seq<string>, defaultPortal: string, jwtExpirySeconds: int)

  datatype Session = Session(jwt: string, expiresAt: int, memberId: string, domain: string)

  datatype PendingSession = PendingSession(portal: string, session: Option<Session>)

  /** What the token endpoint returned; empty strings, and no seconds, are missing fields. */
  datatype Grant = Grant(
    domain: string, memberId: string, userId: string, clientEndpoint: string,
    accessToken: Base64.Bytes, refreshToken: Base64.Bytes, expiresIn: int)

  /** A callback suspended at one of its awaits, with the locals it will need. */
  datatype Callback =
    | Exchanging(state: string, portal: string, domain: string, memberId: string)
    | Storing(state: string, portal: string, domain: string, memberId: string, clientEndpoint: string)

  datatype Server = Server(
    vault: Vault,
    pending: map<string, PendingSession>,
    timers: map<string, int>,
    callbacks: map<nat, Callback>)

  datatype Event =
    | Login(requested: Option<string>, state: string, at: int)
    | CallbackArrives(id: nat, code: string, state: string, domain: string, memberId: string, at: int)
    | ExchangeFails(id: nat, timedOut: bool, at: int)
    | ExchangeReturns(id: nat, grant: Grant, at: int)
    | TokensStored(id: nat, jti: string, at: int)
    | Poll(state: string, at: int)
    | SessionTimer(state: string, at: int)
    | Refresh(token: string, jti: string, at: int)
    | Logout(token: string, at: int)
    | Authenticate(token: string, at: int)
    | Cleanup(at: int)

  datatype Answer =
    | Nothing
    | LoginUrl(portal: string)
    | LoginRefused(error: ResolveError)
    | CallbackRefused(status: int)
    | CallbackDone
    | StillPending
    | Delivered(session: Session)
    | NoSession
    | Unauthorized
    | Renewed(jwt: string, expiresAt: int)
    | LoggedOut
    | Authenticated(claims: Claims)

  // ---------------------------------------------------------------- handlers

  function FirstNonEmpty(a: string, b: string, c: string): string {
    if a != "" then a else if b != "" then b else c
  }

  function HandleLogin(s: Server, cfg: Config, requested: Option<string>, state: string, now: int): (Server, Answer) {
    match ResolvePortal(requested, cfg.defaultPortal, cfg.allowed)
    case Err(error) => (s, LoginRefused(error))
    case Ok(portal) =>
      (s.(vault := GenerateState(s.vault, state, now),
          pending := s.pending[state := PendingSession(portal, None)],
          timers := s.timers[state := now + SESSION_TTL_MS]),
       LoginUrl(portal))
  }

  /** The callback up to its request to the token endpoint. */
  function HandleCallback(s: Server, id: nat, code: string, state: string, domain: string, memberId: string, now: int): (Server, Answer) {
    if code == "" || state == "" then (s, CallbackRefused(400))
    else
      var (vault, valid) := ValidateState(s.vault, state, now);
      var t := s.(vault := vault);
      if !valid || state !in s.pending then (t, CallbackRefused(400))
      else (t.(callbacks := s.callbacks[id := Exchanging(state, s.pending[state].portal, domain, memberId)]), Nothing)
  }

  /** After the token endpoint answered: the portal and the member are settled, or the login is refused. */
  function HandleExchange(s: Server, cfg: Config, id: nat, grant: Grant): (Server, Answer)
    requires id in s.callbacks && s.callbacks[id].Exchanging?
  {
    var c := s.callbacks[id];
    var ended := s.(callbacks := s.callbacks - {id});
    var domain := ToLower(Trim(FirstNonEmpty(c.domain, grant.domain, cfg.defaultPortal)));
    var memberId := Trim(FirstNonEmpty(c.memberId, grant.memberId, grant.userId));
    if domain == "" || !IsPortalAllowed(domain, cfg.allowed) then (ended, CallbackRefused(403))
    else if domain != c.portal then (ended, CallbackRefused(400))
    else if memberId == "" then (ended, CallbackRefused(502))
    else
      var endpoint := FirstNonEmpty(grant.clientEndpoint, "https://" + domain + "/rest/", "");
      (s.(callbacks := s.callbacks[id := Storing(c.state, c.portal, domain, memberId, endpoint)]), Nothing)
  }

  /** The Bitrix24 tokens a callback stores before it signs anything. */
  function GrantedTokens(grant: Grant, c: Callback, now: int): TokenStore.BitrixTokens
    requires c.Storing?
  {
    TokenStore.BitrixTokens(grant.accessToken, grant.refreshToken, c.clientEndpoint, c.domain,
                            Seconds(now) + (if grant.expiresIn == 0 then 3600 else grant.expiresIn))
  }

  /** After the Bitrix24 tokens were stored: a token is signed and left for the poller. */
  function HandleStored(s: Server, cfg: Config, id: nat, jti: string, now: int): (Server, Answer)
    requires id in s.callbacks && s.callbacks[id].Storing?
  {
    var c := s.callbacks[id];
    var exp := Seconds(now) + cfg.jwtExpirySeconds;
    (s.(vault := Sign(s.vault, jti, c.memberId, c.domain, c.clientEndpoint, exp),
        pending := s.pending[c.state := PendingSession(c.portal, Some(Session(jti, exp, c.memberId, c.domain)))],
        callbacks := s.callbacks - {id}),
     CallbackDone)
  }

  function HandlePoll(s: Server, state: string): (Server, Answer) {
    if state == "" || state !in s.pending then (s, NoSession)
    else if s.pending[state].session.None? then (s, StillPending)
    else (s.(pending := s.pending - {state}), Delivered(s.pending[state].session.value))
  }

  function HandleRefresh(s: Server, cfg: Config, token: string, jti: string, now: int): (Server, Answer) {
    var exp := Seconds(now) + cfg.jwtExpirySeconds;
    var (vault, ok) := Renew(s.vault, token, jti, exp, now);
    if ok then (s.(vault := vault), Renewed(jti, exp)) else (s, Unauthorized)
  }

  function HandleLogout(s: Server, token: string, now: int): (Server, Answer) {
    var (vault, ok) := Revoke(s.vault, token, now);
    if ok then (s.(vault := vault), LoggedOut) else (s, Unauthorized)
  }

  function Respond(s: Server, cfg: Config, e: Event): (Server, Answer) {
    match e
    case Login(requested, state, now) => HandleLogin(s, cfg, requested, state, now)
    case CallbackArrives(id, code, state, domain, memberId, now) => HandleCallback(s, id, code, state, domain, memberId, now)
    case ExchangeFails(id, timedOut, _) => (s.(callbacks := s.callbacks - {id}), CallbackRefused(if timedOut then 504 else 502))
    case ExchangeReturns(id, grant, _) =>
      if id in s.callbacks && s.callbacks[id].Exchanging? then HandleExchange(s, cfg, id, grant) else (s, Nothing)
    case TokensStored(id, jti, now) =>
      if id in s.callbacks && s.callbacks[id].Storing? then HandleStored(s, cfg, id, jti, now) else (s, Nothing)
    case Poll(state, _) => HandlePoll(s, state)
    case SessionTimer(state, _) => (s.(pending := s.pending - {state}, timers := s.timers - {state}), Nothing)
    case Refresh(token, jti, now) => HandleRefresh(s, cfg, token, jti, now)
    case Logout(token, now) => HandleLogout(s, token, now)
    case Authenticate(token, now) =>
      (s, match Verify(s.vault, token, now) case None => Unauthorized case Some(claims) => Authenticated(claims))
    case Cleanup(now) => (s.(vault := AfterCleanup(s.vault, now)), Nothing)
  }

  // ---------------------------------------------------------------- runs

  datatype LoginRecord = LoginRecord(portal: string, at: int)

  datatype Consumption = Consumption(state: string, at: int)

  datatype Delivery = Delivery(state: string, session: Session)

  datatype History = History(
    logins: map<string, LoginRecord>,
    consumed: seq<Consumption>,
    used: set<string>,
    delivered: seq<Delivery>,
    served: set<string>,
    callbackIds: set<nat>,
    signedByCallbacks: nat,
    logouts: nat,
    revoked: set<string>)

  datatype World = World(server: Server, history: History, clock: int)

  /** Random states and jtis are new, callbacks are told apart, timers are not early, time does not go back. */
  predicate Enabled(w: World, e: Event) {
    && e.at >= w.clock
    && match e
       case Login(_, state, _) => state !in w.history.logins && state != ""
       case CallbackArrives(id, _, _, _, _, _) => id !in w.history.callbackIds
       case TokensStored(_, jti, _) => jti !in w.server.vault.issued
       case SessionTimer(state, now) => state in w.server.timers && now >= w.server.timers[state]
       case Refresh(_, jti, _) => jti !in w.server.vault.issued
       case _ => true
  }

  function Record(h: History, s: Server, e: Event, answer: Answer): History {
    match e
    case Login(_, state, now) =>
      if answer.LoginUrl? then h.(logins := h.logins[state := LoginRecord(answer.portal, now)]) else h
    case CallbackArrives(id, code, state, _, _, now) =>
      var h' := h.(callbackIds := h.callbackIds + {id});
      if code != "" && state != "" && ValidateState(s.vault, state, now).1
      then h'.(consumed := h.consumed + [Consumption(state, now)], used := h.used + {state}) else h'
    case TokensStored(_, _, _) =>
      if answer.CallbackDone? then h.(signedByCallbacks := h.signedByCallbacks + 1) else h
    case Poll(state, _) =>
      if answer.Delivered? then h.(delivered := h.delivered + [Delivery(state, answer.session)], served := h.served + {state}) else h
    case Refresh(token, _, _) => if answer.Renewed? then h.(revoked := h.revoked + {token}) else h
    case Logout(token, _) =>
      if answer.LoggedOut? then h.(revoked := h.revoked + {token}, logouts := h.logouts + 1) else h
    case _ => h
  }

  function Next(w: World, cfg: Config, e: Event): World {
    var (server, answer) := Respond(w.server, cfg, e);
    World(server, Record(w.history, w.server, e, answer), e.at)
  }

  predicate ValidRun(w: World, cfg: Config, es: seq<Event>)
    decreases |es|
  {
    es == [] || (Enabled(w, es[0]) && ValidRun(Next(w, cfg, es[0]), cfg, es[1..]))
  }

  function Run(w: World, cfg: Config, es: seq<Event>): World
    decreases |es|
  {
    if es == [] then w else Run(Next(w, cfg, es[0]), cfg, es[1..])
  }

  function Start(clock: int): World {
    World(Server(EMPTY, map[], map[], map[]), History(map[], [], {}, [], {}, {}, 0, 0, {}), clock)
  }

  // ---------------------------------------------------------------- sign-in safety

  /** A state in the store is one a login created and no callback has used. */
  ghost predicate StatesUnused(w: World) {
    forall s | s in w.server.vault.oauthStates ::
      s in w.history.logins && w.server.vault.oauthStates[s] == w.history.logins[s].at && s !in w.history.used
  }

  /** Uses of states: each by one login's state, once, and in time. */
  ghost predicate ConsumptionsGood(h: History) {
    && (forall i | 0 <= i < |h.consumed| ::
          var c := h.consumed[i];
          c.state in h.logins && c.state in h.used && c.at - h.logins[c.state].at <= STATE_EXPIRY_MS)
    && (forall i, j | 0 <= i < j < |h.consumed| :: h.consumed[i].state != h.consumed[j].state)
    && (forall s | s in h.used :: exists i :: 0 <= i < |h.consumed| && h.consumed[i].state == s)
  }

  ghost predicate SessionGood(h: History, state: string, session: Session) {
    state in h.logins && state in h.used && session.domain == h.logins[state].portal
  }

  ghost predicate PendingGood(w: World) {
    forall s | s in w.server.pending ::
      && s in w.history.logins && w.server.pending[s].portal == w.history.logins[s].portal
      && (w.server.pending[s].session.Some? ==>
            SessionGood(w.history, s, w.server.pending[s].session.value) && s !in w.history.served)
  }

  /** A callback holds a state it has used; no session exists for it yet and no other callback holds it. */
  ghost predicate CallbacksGood(w: World) {
    && (forall id | id in w.server.callbacks ::
          var c := w.server.callbacks[id];
          && id in w.history.callbackIds
          && c.state in w.history.logins && c.portal == w.history.logins[c.state].portal
          && c.state in w.history.used && c.state !in w.history.served
          && (c.state in w.server.pending ==> w.server.pending[c.state].session.None?)
          && (c.Storing? ==> c.domain == c.portal))
    && (forall a, b | a in w.server.callbacks && b in w.server.callbacks && a != b ::
          w.server.callbacks[a].state != w.server.callbacks[b].state)
  }

  ghost predicate DeliveriesGood(h: History) {
    && (forall i | 0 <= i < |h.delivered| ::
          SessionGood(h, h.delivered[i].state, h.delivered[i].session) && h.delivered[i].state in h.served)
    && (forall i, j | 0 <= i < j < |h.delivered| :: h.delivered[i].state != h.delivered[j].state)
    && h.served <= h.used
  }

  ghost predicate LoginsServed(h: History, cfg: Config) {
    forall s | s in h.logins :: IsValidPortalHostname(h.logins[s].portal) && IsPortalAllowed(h.logins[s].portal, cfg.allowed)
  }

  ghost predicate FlowInv(w: World) {
    && StatesUnused(w) && ConsumptionsGood(w.history) && PendingGood(w)
    && CallbacksGood(w) && DeliveriesGood(w.history)
    && (forall s | s in w.history.used :: s in w.history.logins)
  }

  lemma {:induction false} LoginKeepsFlow(w: World, cfg: Config, requested: Option<string>, state: string, now: int)
    requires FlowInv(w) && Enabled(w, Login(requested, state, now))
    ensures FlowInv(Next(w, cfg, Login(requested, state, now)))
  {}

  /** The part of the history the sign-in flow depends on. */
  ghost predicate SameFlow(h: History, h': History) {
    && h'.logins == h.logins && h'.consumed == h.consumed && h'.used == h.used
    && h'.delivered == h.delivered && h'.served == h.served && h.callbackIds <= h'.callbackIds
  }

  /** Removing states or sessions, which timers and sweeps do, cannot hurt. */
  lemma {:induction false} ShrinkKeepsFlow(w: World, w': World)
    requires FlowInv(w) && SameFlow(w.history, w'.history)
    requires forall s | s in w'.server.vault.oauthStates ::
               s in w.server.vault.oauthStates && w'.server.vault.oauthStates[s] == w.server.vault.oauthStates[s]
    requires forall s | s in w'.server.pending :: s in w.server.pending && w'.server.pending[s] == w.server.pending[s]
    requires w'.server.callbacks == w.server.callbacks
    ensures FlowInv(w')
  {}

  lemma {:induction false} ConsumptionKept(h: History, h': History, state: string, now: int)
    requires ConsumptionsGood(h) && state in h.logins && state !in h.used && now - h.logins[state].at <= STATE_EXPIRY_MS
    requires h'.logins == h.logins && h'.used == h.used + {state} && h'.consumed == h.consumed + [Consumption(state, now)]
    ensures ConsumptionsGood(h')
  {
    assert h'.consumed[|h.consumed|].state == state;
    forall s | s in h'.used ensures exists i :: 0 <= i < |h'.consumed| && h'.consumed[i].state == s {
      if s != state {
        var i :| 0 <= i < |h.consumed| && h.consumed[i].state == s;
        assert h'.consumed[i].state == s;
      }
    }
  }

  lemma {:induction false} ConsumerIsGood(w: World, w': World, id: nat, state: string, domain: string, memberId: string)
    requires CallbacksGood(w) && PendingGood(w) && id !in w.history.callbackIds && w.history.served <= w.history.used
    requires state !in w.history.used && state in w.history.logins
    requires w'.history.logins == w.history.logins && w'.history.served == w.history.served
    requires w'.history.callbackIds == w.history.callbackIds + {id} && w'.history.used == w.history.used + {state}
    requires w'.server.pending == w.server.pending
    requires w'.server.callbacks == w.server.callbacks ||
             (state in w.server.pending &&
              w'.server.callbacks == w.server.callbacks[id := Exchanging(state, w.server.pending[state].portal, domain, memberId)])
    ensures CallbacksGood(w')
  {}

  /** A state is used and the callback that used it goes to the token endpoint. */
  lemma {:induction false} ConsumeKeepsFlow(w: World, w': World, id: nat, state: string, domain: string, memberId: string, now: int)
    requires FlowInv(w) && id !in w.history.callbackIds
    requires state in w.server.vault.oauthStates && now - w.server.vault.oauthStates[state] <= STATE_EXPIRY_MS
    requires w'.history == w.history.(callbackIds := w.history.callbackIds + {id},
               consumed := w.history.consumed + [Consumption(state, now)], used := w.history.used + {state})
    requires w'.server.vault.oauthStates == w.server.vault.oauthStates - {state}
    requires w'.server.pending == w.server.pending
    requires w'.server.callbacks == w.server.callbacks ||
             (state in w.server.pending &&
              w'.server.callbacks == w.server.callbacks[id := Exchanging(state, w.server.pending[state].portal, domain, memberId)])
    ensures FlowInv(w')
  {
    ConsumptionKept(w.history, w'.history, state, now);
    assert StatesUnused(w');
    assert PendingGood(w');
    ConsumerIsGood(w, w', id, state, domain, memberId);
    assert DeliveriesGood(w'.history);
  }

  lemma {:induction false} CallbackKeepsFlow(w: World, cfg: Config, e: Event)
    requires FlowInv(w) && Enabled(w, e) && e.CallbackArrives?
    ensures FlowInv(Next(w, cfg, e))
  {
    var w' := Next(w, cfg, e);
    if e.code != "" && e.state != "" && ValidateState(w.server.vault, e.state, e.at).1 {
      ConsumeKeepsFlow(w, w', e.id, e.state, e.domain, e.memberId, e.at);
    } else {
      ShrinkKeepsFlow(w, w');
    }
  }

  lemma {:induction false} DeliverKeepsFlow(w: World, w': World, state: string)
    requires FlowInv(w) && state in w.server.pending && w.server.pending[state].session.Some?
    requires w'.history == w.history.(delivered := w.history.delivered + [Delivery(state, w.server.pending[state].session.value)],
               served := w.history.served + {state})
    requires w'.server == w.server.(pending := w.server.pending - {state})
    ensures FlowInv(w')
  {
    assert DeliveriesGood(w'.history);
    assert PendingGood(w');
    assert CallbacksGood(w');
  }

  /** The exchange ends the callback or moves it on with the portal its login chose. */
  ghost predicate MovedOn(c: Callback, d: Callback) {
    d.Storing? && d.state == c.state && d.portal == c.portal && d.domain == c.portal
  }

  lemma ExchangeEffect(s: Server, cfg: Config, id: nat, grant: Grant)
    requires id in s.callbacks && s.callbacks[id].Exchanging?
    ensures var t := HandleExchange(s, cfg, id, grant).0;
            t == s.(callbacks := t.callbacks) &&
            (t.callbacks == s.callbacks - {id} ||
             (id in t.callbacks && t.callbacks == s.callbacks[id := t.callbacks[id]] && MovedOn(s.callbacks[id], t.callbacks[id])))
  {}

  lemma {:induction false} ExchangeKeepsFlow(w: World, w': World, id: nat)
    requires FlowInv(w) && w'.history == w.history && w'.server == w.server.(callbacks := w'.server.callbacks)
    requires w'.server.callbacks == w.server.callbacks - {id} ||
             (id in w.server.callbacks && id in w'.server.callbacks
              && w'.server.callbacks == w.server.callbacks[id := w'.server.callbacks[id]]
              && MovedOn(w.server.callbacks[id], w'.server.callbacks[id]))
    ensures FlowInv(w')
  {
    assert forall x | x in w'.server.callbacks ::
        x in w.server.callbacks && w'.server.callbacks[x].state == w.server.callbacks[x].state
        && w'.server.callbacks[x].portal == w.server.callbacks[x].portal;
    assert CallbacksGood(w');
  }

  lemma {:induction false} StoredKeepsFlow(w: World, w': World, id: nat, session: Session)
    requires FlowInv(w) && id in w.server.callbacks && w.server.callbacks[id].Storing?
    requires w'.history == w.history.(signedByCallbacks := w'.history.signedByCallbacks)
    requires w'.server.vault.oauthStates == w.server.vault.oauthStates
    requires w'.server.callbacks == w.server.callbacks - {id}
    requires session.domain == w.server.callbacks[id].domain
    requires w'.server.pending == var c := w.server.callbacks[id]; w.server.pending[c.state := PendingSession(c.portal, Some(session))]
    ensures FlowInv(w')
  {
    var c := w.server.callbacks[id];
    assert SessionGood(w'.history, c.state, session);
    assert PendingGood(w');
    forall x | x in w'.server.callbacks ensures w'.server.callbacks[x].state != c.state {
      assert x in w.server.callbacks && x != id;
    }
    assert CallbacksGood(w');
  }

  lemma {:induction false} ExchangedKeepsFlow(w: World, cfg: Config, e: Event)
    requires FlowInv(w) && Enabled(w, e) && (e.ExchangeReturns? || e.ExchangeFails?)
    ensures FlowInv(Next(w, cfg, e))
  {
    var w' := Next(w, cfg, e);
    if e.ExchangeFails? {
      ExchangeKeepsFlow(w, w', e.id);
    } else if e.id in w.server.callbacks && w.server.callbacks[e.id].Exchanging? {
      ExchangeEffect(w.server, cfg, e.id, e.grant);
      ExchangeKeepsFlow(w, w', e.id);
    } else {
      ShrinkKeepsFlow(w, w');
    }
  }

  lemma {:induction false} TokensStoredKeepsFlow(w: World, cfg: Config, e: Event)
    requires FlowInv(w) && Enabled(w, e) && e.TokensStored?
    ensures FlowInv(Next(w, cfg, e))
  {
    var w' := Next(w, cfg, e);
    if e.id in w.server.callbacks && w.server.callbacks[e.id].Storing? {
      var c := w.server.callbacks[e.id];
      StoredKeepsFlow(w, w', e.id, Session(e.jti, Seconds(e.at) + cfg.jwtExpirySeconds, c.memberId, c.domain));
    } else {
      ShrinkKeepsFlow(w, w');
    }
  }

  lemma {:induction false} PollKeepsFlow(w: World, cfg: Config, e: Event)
    requires FlowInv(w) && Enabled(w, e) && e.Poll?
    ensures FlowInv(Next(w, cfg, e))
  {
    if HandlePoll(w.server, e.state).1.Delivered? {
      DeliverKeepsFlow(w, Next(w, cfg, e), e.state);
    } else {
      ShrinkKeepsFlow(w, Next(w, cfg, e));
    }
  }

  lemma {:induction false} StepKeepsFlow(w: World, cfg: Config, e: Event)
    requires FlowInv(w) && Enabled(w, e)
    ensures FlowInv(Next(w, cfg, e))
  {
    if e.Login? {
      LoginKeepsFlow(w, cfg, e.requested, e.state, e.at);
    } else if e.CallbackArrives? {
      CallbackKeepsFlow(w, cfg, e);
    } else if e.ExchangeReturns? || e.ExchangeFails? {
      ExchangedKeepsFlow(w, cfg, e);
    } else if e.TokensStored? {
      TokensStoredKeepsFlow(w, cfg, e);
    } else if e.Poll? {
      PollKeepsFlow(w, cfg, e);
    } else {
      ShrinkKeepsFlow(w, Next(w, cfg, e));
    }
  }

  lemma {:induction false} RunKeepsFlow(w: World, cfg: Config, es: seq<Event>)
    requires FlowInv(w) && ValidRun(w, cfg, es)
    ensures FlowInv(Run(w, cfg, es))
    decreases |es|
  {
    if es != [] {
      StepKeepsFlow(w, cfg, es[0]);
      RunKeepsFlow(Next(w, cfg, es[0]), cfg, es[1..]);
    }
  }

  lemma {:induction false} LoginsStayServed(w: World, cfg: Config, es: seq<Event>)
    requires LoginsServed(w.history, cfg)
    ensures LoginsServed(Run(w, cfg, es).history, cfg)
    decreases |es|
  {
    if es != [] {
      if es[0].Login? { ResolvedPortalIsServed(es[0].requested, cfg.defaultPortal, cfg.allowed); }
      LoginsStayServed(Next(w, cfg, es[0]), cfg, es[1..]);
    }
  }

  /**
   Over every interleaving: a session handed to a poller was handed out once for its state, after exactly
   one callback used that state within 300 s of its login, and carries the well-formed, allowlisted
   portal that login chose.
   */
  lemma {:induction false} SignInSafety(cfg: Config, es: seq<Event>, clock: int, i: nat)
    requires ValidRun(Start(clock), cfg, es)
    requires i < |Run(Start(clock), cfg, es).history.delivered|
    ensures var h := Run(Start(clock), cfg, es).history;
            var d := h.delivered[i];
            && (forall j | 0 <= j < |h.delivered| && j != i :: h.delivered[j].state != d.state)
            && (exists k :: 0 <= k < |h.consumed| && h.consumed[k].state == d.state)
            && d.state in h.logins
            && (forall k | 0 <= k < |h.consumed| && h.consumed[k].state == d.state ::
                  && h.consumed[k].at - h.logins[d.state].at <= STATE_EXPIRY_MS
                  && forall l | 0 <= l < |h.consumed| && l != k :: h.consumed[l].state != d.state)
            && d.session.domain == h.logins[d.state].portal
            && IsValidPortalHostname(d.session.domain)
            && IsPortalAllowed(d.session.domain, cfg.allowed)
  {
    RunKeepsFlow(Start(clock), cfg, es);
    LoginsStayServed(Start(clock), cfg, es);
    DeliveryFacts(Run(Start(clock), cfg, es), i);
  }

  lemma {:induction false} DeliveryFacts(w: World, i: nat)
    requires FlowInv(w) && i < |w.history.delivered|
    ensures var h := w.history;
            var d := h.delivered[i];
            && SessionGood(h, d.state, d.session)
            && (forall j | 0 <= j < |h.delivered| && j != i :: h.delivered[j].state != d.state)
            && (exists k :: 0 <= k < |h.consumed| && h.consumed[k].state == d.state)
            && (forall k | 0 <= k < |h.consumed| && h.consumed[k].state == d.state ::
                  && h.consumed[k].at - h.logins[d.state].at <= STATE_EXPIRY_MS
                  && forall l | 0 <= l < |h.consumed| && l != k :: h.consumed[l].state != d.state)
  {
    var h := w.history;
    var d := h.delivered[i];
    forall j | 0 <= j < |h.delivered| && j != i ensures h.delivered[j].state != d.state {
      if j < i { assert h.delivered[j].state != h.delivered[i].state; }
    }
    forall k, l | 0 <= k < |h.consumed| && h.consumed[k].state == d.state && 0 <= l < |h.consumed| && l != k
      ensures h.consumed[l].state != d.state
    {
      if l < k { assert h.consumed[l].state != h.consumed[k].state; }
    }
  }

  // ---------------------------------------------------------------- conservation of sessions

  ghost predicate Counted(v: Vault, h: History, clock: int) {
    && Remembers(v, h.revoked, clock)
    && |Live(v, h.revoked)| + h.logouts == h.signedByCallbacks
  }

  ghost predicate CountInv(w: World) { Counted(w.server.vault, w.history, w.clock) }

  lemma RefreshKeepsCount(s: Server, h: History, cfg: Config, clock: int, token: string, jti: string, now: int)
    requires Counted(s.vault, h, clock) && now >= clock && jti !in s.vault.issued
    ensures var (t, answer) := HandleRefresh(s, cfg, token, jti, now);
            Counted(t.vault, if answer.Renewed? then h.(revoked := h.revoked + {token}) else h, now)
  {
    LaterRemembers(s.vault, h.revoked, clock, now);
    if Verify(s.vault, token, now).Some? {
      var u := s.vault.issued[token];
      RevokeRemembers(s.vault, h.revoked, now, token);
      SignRemembers(Blacklist(s.vault, token, u.exp), h.revoked + {token}, now, jti, u.memberId, u.domain, u.clientEndpoint,
                    Seconds(now) + cfg.jwtExpirySeconds);
    }
  }

  lemma LogoutKeepsCount(s: Server, h: History, clock: int, token: string, now: int)
    requires Counted(s.vault, h, clock) && now >= clock
    ensures var (t, answer) := HandleLogout(s, token, now);
            Counted(t.vault, if answer.LoggedOut? then h.(revoked := h.revoked + {token}, logouts := h.logouts + 1) else h, now)
  {
    LaterRemembers(s.vault, h.revoked, clock, now);
    if Verify(s.vault, token, now).Some? {
      RevokeRemembers(s.vault, h.revoked, now, token);
    }
  }

  lemma SignKeepsCount(v: Vault, h: History, h': History, clock: int, jti: string, m: string, d: string, c: string, exp: int, now: int)
    requires Counted(v, h, clock) && now >= clock && jti !in v.issued
    requires h' == h.(signedByCallbacks := h.signedByCallbacks + 1)
    ensures Counted(Sign(v, jti, m, d, c, exp), h', now)
  {
    LaterRemembers(v, h.revoked, clock, now);
    SignRemembers(v, h.revoked, now, jti, m, d, c, exp);
  }

  /** Steps that neither sign nor revoke keep the count. */
  lemma SameTokensKeepCount(v: Vault, v': Vault, h: History, h': History, clock: int, now: int)
    requires Counted(v, h, clock) && clock <= now
    requires h'.revoked == h.revoked && h'.logouts == h.logouts && h'.signedByCallbacks == h.signedByCallbacks
    requires v'.issued == v.issued && v'.jtiBlacklist == v.jtiBlacklist
    ensures Counted(v', h', now)
  {
    assert Live(v', h'.revoked) == Live(v, h.revoked);
  }

  /** The steps that can change the tokens. */
  predicate TouchesTokens(e: Event) {
    e.TokensStored? || e.Refresh? || e.Logout? || e.Cleanup?
  }

  lemma OtherStepsKeepTokens(w: World, cfg: Config, e: Event)
    requires !TouchesTokens(e)
    ensures var w' := Next(w, cfg, e);
            && w'.server.vault.issued == w.server.vault.issued
            && w'.server.vault.jtiBlacklist == w.server.vault.jtiBlacklist
            && w'.history.revoked == w.history.revoked && w'.history.logouts == w.history.logouts
            && w'.history.signedByCallbacks == w.history.signedByCallbacks
  {}

  lemma {:induction false} TokenStepKeepsCount(w: World, cfg: Config, e: Event)
    requires CountInv(w) && Enabled(w, e) && TouchesTokens(e)
    ensures CountInv(Next(w, cfg, e))
    ensures w.history.revoked <= Next(w, cfg, e).history.revoked
  {
    match e {
      case Cleanup(now) => CleanupRemembers(w.server.vault, w.history.revoked, w.clock, now);
      case TokensStored(id, jti, now) =>
        LaterRemembers(w.server.vault, w.history.revoked, w.clock, now);
        if id in w.server.callbacks && w.server.callbacks[id].Storing? {
          var c := w.server.callbacks[id];
          SignKeepsCount(w.server.vault, w.history, Next(w, cfg, e).history, w.clock, jti, c.memberId, c.domain, c.clientEndpoint,
                         Seconds(now) + cfg.jwtExpirySeconds, now);
        }
      case Refresh(token, jti, now) => RefreshKeepsCount(w.server, w.history, cfg, w.clock, token, jti, now);
      case Logout(token, now) => LogoutKeepsCount(w.server, w.history, w.clock, token, now);
    }
  }

  lemma {:induction false} StepKeepsCount(w: World, cfg: Config, e: Event)
    requires CountInv(w) && Enabled(w, e)
    ensures CountInv(Next(w, cfg, e))
    ensures w.history.revoked <= Next(w, cfg, e).history.revoked
  {
    if TouchesTokens(e) {
      TokenStepKeepsCount(w, cfg, e);
    } else {
      OtherStepsKeepTokens(w, cfg, e);
      var w' := Next(w, cfg, e);
      SameTokensKeepCount(w.server.vault, w'.server.vault, w.history, w'.history, w.clock, e.at);
    }
  }

  lemma {:induction false} RunKeepsCount(w: World, cfg: Config, es: seq<Event>)
    requires CountInv(w) && ValidRun(w, cfg, es)
    ensures CountInv(Run(w, cfg, es))
    ensures w.history.revoked <= Run(w, cfg, es).history.revoked
    ensures Run(w, cfg, es).clock >= w.clock
    decreases |es|
  {
    if es != [] {
      StepKeepsCount(w, cfg, es[0]);
      RunKeepsCount(Next(w, cfg, es[0]), cfg, es[1..]);
    }
  }

  /** In every run, tokens that verify plus successful logouts never exceed the callbacks that signed one. */
  lemma {:induction false} SessionsAreConserved(cfg: Config, es: seq<Event>, clock: int, now: int)
    requires ValidRun(Start(clock), cfg, es)
    requires now >= Run(Start(clock), cfg, es).clock
    ensures var w := Run(Start(clock), cfg, es);
            |Accepted(w.server.vault, now)| + w.history.logouts <= w.history.signedByCallbacks
  {
    RunKeepsCount(Start(clock), cfg, es);
    var w := Run(Start(clock), cfg, es);
    var v, r := w.server.vault, w.history.revoked;
    forall j | j in Accepted(v, now) ensures j in Live(v, r) { VerifiedIsLive(v, r, w.clock, j, now); }
    SubsetSize(Accepted(v, now), Live(v, r));
  }

  /** A refresh retires exactly the token presented as it adds the new one; anything else changes nothing. */
  lemma {:induction false} RefreshIsOneForOne(cfg: Config, es: seq<Event>, clock: int, token: string, jti: string, now: int)
    requires ValidRun(Start(clock), cfg, es)
    requires Enabled(Run(Start(clock), cfg, es), Refresh(token, jti, now))
    ensures var before := Run(Start(clock), cfg, es).server;
            var (after, answer) := HandleRefresh(before, cfg, token, jti, now);
            if token in Accepted(before.vault, now)
            then answer == Renewed(jti, Seconds(now) + cfg.jwtExpirySeconds)
                 && Accepted(after.vault, now)
                    == Accepted(before.vault, now) - {token} + (if cfg.jwtExpirySeconds > 0 then {jti} else {})
            else answer == Unauthorized && after == before
  {
    RunKeepsCount(Start(clock), cfg, es);
    RefreshSwaps(Run(Start(clock), cfg, es), cfg, token, jti, now);
  }

  lemma RefreshSwaps(w: World, cfg: Config, token: string, jti: string, now: int)
    requires CountInv(w) && now >= w.clock && jti !in w.server.vault.issued
    ensures var before := w.server;
            var (after, answer) := HandleRefresh(before, cfg, token, jti, now);
            if token in Accepted(before.vault, now)
            then answer == Renewed(jti, Seconds(now) + cfg.jwtExpirySeconds)
                 && Accepted(after.vault, now)
                    == Accepted(before.vault, now) - {token} + (if cfg.jwtExpirySeconds > 0 then {jti} else {})
            else answer == Unauthorized && after == before
  {
    if token in Accepted(w.server.vault, now) {
      RenewalIsOneForOne(w.server.vault, w.history.revoked, w.clock, token, jti, Seconds(now) + cfg.jwtExpirySeconds, now);
    }
  }

  /** A token refreshed away or logged out is never accepted again, however long the run and whatever is swept. */
  lemma {:induction false} NeverAcceptedAgain(cfg: Config, es: seq<Event>, clock: int, token: string, more: seq<Event>, now: int)
    requires ValidRun(Start(clock), cfg, es)
    requires token in Run(Start(clock), cfg, es).history.revoked
    requires ValidRun(Run(Start(clock), cfg, es), cfg, more)
    requires now >= Run(Run(Start(clock), cfg, es), cfg, more).clock
    ensures Verify(Run(Run(Start(clock), cfg, es), cfg, more).server.vault, token, now) == None
  {
    RunKeepsCount(Start(clock), cfg, es);
    RunKeepsCount(Run(Start(clock), cfg, es), cfg, more);
    var w := Run(Run(Start(clock), cfg, es), cfg, more);
    VerifiedIsLive(w.server.vault, w.history.revoked, w.clock, token, now);
  }

  // ---------------------------------------------------------------- sweeps cannot be observed

  function WithoutCleanups(es: seq<Event>): seq<Event> {
    if es == [] then []
    else if es[0].Cleanup? then WithoutCleanups(es[1..])
    else [es[0]] + WithoutCleanups(es[1..])
  }

  /** The answers to everything but the cleanups. */
  function Answers(s: Server, cfg: Config, es: seq<Event>): seq<Answer>
    decreases |es|
  {
    if es == [] then []
    else
      var (t, answer) := Respond(s, cfg, es[0]);
      (if es[0].Cleanup? then [] else [answer]) + Answers(t, cfg, es[1..])
  }

  ghost predicate SweptServer(swept: Server, full: Server, clock: int) {
    full == swept.(vault := full.vault) && Unobserved(swept.vault, full.vault, clock)
  }

  /** Steps that leave the vault alone do the same on both sides. */
  predicate LeavesVault(e: Event) {
    e.ExchangeFails? || e.ExchangeReturns? || e.Poll? || e.SessionTimer?
  }

  lemma VaultPlaysNoPart(s: Server, v: Vault, cfg: Config, e: Event)
    requires LeavesVault(e)
    ensures var (t, answer) := Respond(s, cfg, e);
            Respond(s.(vault := v), cfg, e) == (t.(vault := v), answer) && t.vault == s.vault
  {}

  lemma {:induction false} LoginUnobserved(s: Server, full: Server, cfg: Config, e: Event)
    requires SweptServer(s, full, e.at) && e.Login?
    ensures Respond(s, cfg, e).1 == Respond(full, cfg, e).1
    ensures SweptServer(Respond(s, cfg, e).0, Respond(full, cfg, e).0, e.at)
  {
    GenerateUnobserved(s.vault, full.vault, e.at, e.state, e.at);
  }

  lemma {:induction false} CallbackUnobserved(s: Server, full: Server, cfg: Config, e: Event)
    requires SweptServer(s, full, e.at) && e.CallbackArrives?
    ensures Respond(s, cfg, e).1 == Respond(full, cfg, e).1
    ensures SweptServer(Respond(s, cfg, e).0, Respond(full, cfg, e).0, e.at)
  {
    SweptAnswersTheSame(s.vault, full.vault, e.at, e.at, "", e.state);
  }

  lemma VaultsReplaced(s: Server, full: Server, v: Vault, f: Vault, clock: int)
    requires SweptServer(s, full, clock) && Unobserved(v, f, clock)
    ensures SweptServer(s.(vault := v), full.(vault := f), clock)
  {}

  lemma {:induction false} RefreshUnobserved(s: Server, full: Server, cfg: Config, e: Event)
    requires SweptServer(s, full, e.at) && e.Refresh? && e.jti !in full.vault.issued
    ensures Respond(s, cfg, e).1 == Respond(full, cfg, e).1
    ensures SweptServer(Respond(s, cfg, e).0, Respond(full, cfg, e).0, e.at)
  {
    var exp := Seconds(e.at) + cfg.jwtExpirySeconds;
    RenewUnobserved(s.vault, full.vault, e.at, e.token, e.jti, exp);
    VaultsReplaced(s, full, Renew(s.vault, e.token, e.jti, exp, e.at).0, Renew(full.vault, e.token, e.jti, exp, e.at).0, e.at);
  }

  lemma {:induction false} LogoutUnobserved(s: Server, full: Server, cfg: Config, e: Event)
    requires SweptServer(s, full, e.at) && e.Logout?
    ensures Respond(s, cfg, e).1 == Respond(full, cfg, e).1
    ensures SweptServer(Respond(s, cfg, e).0, Respond(full, cfg, e).0, e.at)
  {
    RevokeUnobserved(s.vault, full.vault, e.at, e.token);
  }

  lemma {:induction false} StoredUnobserved(s: Server, full: Server, cfg: Config, e: Event)
    requires SweptServer(s, full, e.at) && e.TokensStored? && e.jti !in full.vault.issued
    ensures Respond(s, cfg, e).1 == Respond(full, cfg, e).1
    ensures SweptServer(Respond(s, cfg, e).0, Respond(full, cfg, e).0, e.at)
  {
    if e.id in full.callbacks && full.callbacks[e.id].Storing? {
      var c := full.callbacks[e.id];
      SignUnobserved(s.vault, full.vault, e.at, e.jti, c.memberId, c.domain, c.clientEndpoint, Seconds(e.at) + cfg.jwtExpirySeconds);
    }
  }

  lemma {:induction false} StepUnobserved(w: World, full: Server, cfg: Config, e: Event)
    requires SweptServer(w.server, full, w.clock) && Enabled(w, e) && !e.Cleanup?
    ensures Respond(w.server, cfg, e).1 == Respond(full, cfg, e).1
    ensures SweptServer(Respond(w.server, cfg, e).0, Respond(full, cfg, e).0, e.at)
  {
    LaterUnobserved(w.server.vault, full.vault, w.clock, e.at);
    if LeavesVault(e) {
      VaultPlaysNoPart(w.server, full.vault, cfg, e);
    } else if e.Login? {
      LoginUnobserved(w.server, full, cfg, e);
    } else if e.CallbackArrives? {
      CallbackUnobserved(w.server, full, cfg, e);
    } else if e.TokensStored? {
      StoredUnobserved(w.server, full, cfg, e);
    } else if e.Refresh? {
      RefreshUnobserved(w.server, full, cfg, e);
    } else if e.Logout? {
      LogoutUnobserved(w.server, full, cfg, e);
    } else {
      SweptAnswersTheSame(w.server.vault, full.vault, e.at, e.at, e.token, "");
    }
  }

  /** Inserting cleanups anywhere in any run changes no answer of any route. */
  lemma {:induction false} CleanupsAreUnobservable(w: World, full: Server, cfg: Config, es: seq<Event>)
    requires SweptServer(w.server, full, w.clock) && ValidRun(w, cfg, es)
    ensures Answers(w.server, cfg, es) == Answers(full, cfg, WithoutCleanups(es))
    decreases |es|
  {
    if es != [] {
      var e := es[0];
      if e.Cleanup? {
        SweepIsSweptOf(w.server.vault, full.vault, w.clock, e.at);
        CleanupsAreUnobservable(Next(w, cfg, e), full, cfg, es[1..]);
      } else {
        StepUnobserved(w, full, cfg, e);
        CleanupsAreUnobservable(Next(w, cfg, e), Respond(full, cfg, e).0, cfg, es[1..]);
        assert WithoutCleanups(es)[1..] == WithoutCleanups(es[1..]);
      }
    }
  }

  lemma {:induction false} CleanupsAreUnobservableFromStart(cfg: Config, es: seq<Event>, clock: int)
    requires ValidRun(Start(clock), cfg, es)
    ensures Answers(Start(clock).server, cfg, es) == Answers(Start(clock).server, cfg, WithoutCleanups(es))
  {
    CleanupsAreUnobservable(Start(clock), Start(clock).server, cfg, es);
  }

  // ---------------------------------------------------------------- the router

  class AuthRouter {
    const cfg: Config
    const tokens: Tokens
    const store: TokenStore.Tokens
    var pendingSessions: map<string, PendingSession>
    var timers: map<string, int>
    /** Callback handlers waiting at an await. */
    var callbacks: map<nat, Callback>

    constructor (cfg: Config, tokens: Tokens, store: TokenStore.Tokens)
      requires tokens.jwtExpirySeconds == cfg.jwtExpirySeconds
      ensures this.cfg == cfg && this.tokens == tokens && this.store == store
      ensures View() == Server(tokens.View(), map[], map[], map[])
    {
      this.cfg, this.tokens, this.store := cfg, tokens, store;
      pendingSessions, timers, callbacks := map[], map[], map[];
    }

    ghost function View(): Server
      reads this, tokens
    {
      Server(tokens.View(), pendingSessions, timers, callbacks)
    }

    method Login(requested: Option<string>, random: string, now: int) returns (answer: Answer)
      modifies this, tokens
      ensures (View(), answer) == HandleLogin(old(View()), cfg, requested, random, now)
    {
      var resolved := ResolvePortal(requested, cfg.defaultPortal, cfg.allowed);
      if resolved.Err? {
        return LoginRefused(resolved.error);
      }
      var state := tokens.GenerateOAuthState(random, now);
      pendingSessions := pendingSessions[state := PendingSession(resolved.value, None)];
      ExpireSession(state, now);
      answer := LoginUrl(resolved.value);
    }

    method ExpireSession(state: string, now: int)
      modifies this`timers
      ensures timers == old(timers)[state := now + SESSION_TTL_MS]
    {
      timers := timers[state := now + SESSION_TTL_MS];
    }

    method SessionTimer(state: string)
      modifies this
      ensures View() == old(View()).(pending := old(pendingSessions) - {state}, timers := old(timers) - {state})
    {
      pendingSessions := pendingSessions - {state};
      timers := timers - {state};
    }

    method CallbackArrives(id: nat, code: string, state: string, domain: string, memberId: string, now: int) returns (answer: Answer)
      modifies this, tokens
      ensures (View(), answer) == HandleCallback(old(View()), id, code, state, domain, memberId, now)
    {
      if code == "" || state == "" {
        return CallbackRefused(400);
      }
      var valid := tokens.ValidateOAuthState(state, now);
      if !valid {
        return CallbackRefused(400);
      }
      if state !in pendingSessions {
        return CallbackRefused(400);
      }
      var pending := pendingSessions[state];
      callbacks := callbacks[id := Exchanging(state, pending.portal, domain, memberId)];
      answer := Nothing;
    }

    method ExchangeFails(id: nat, timedOut: bool) returns (answer: Answer)
      modifies this`callbacks
      ensures callbacks == old(callbacks) - {id}
      ensures answer == CallbackRefused(if timedOut then 504 else 502)
    {
      callbacks := callbacks - {id};
      answer := CallbackRefused(if timedOut then 504 else 502);
    }

    /** A callback that goes on has its Bitrix24 tokens stored under the member; one that is refused stores nothing. */
    method ExchangeReturns(id: nat, grant: Grant, iv1: Base64.Bytes, iv2: Base64.Bytes, dbOk: bool, now: int)
      returns (answer: Answer)
      requires id in callbacks && callbacks[id].Exchanging?
      modifies this, store
      ensures (View(), answer) == HandleExchange(old(View()), cfg, id, grant)
      ensures store.View() ==
                if answer == Nothing
                then TokenStore.Stored(old(store.View()), store.setup, callbacks[id].memberId,
                                       GrantedTokens(grant, callbacks[id], now), iv1, iv2, dbOk)
                else old(store.View())
    {
      var c := callbacks[id];
      callbacks := callbacks - {id};
      var resolvedDomain := ToLower(Trim(FirstNonEmpty(c.domain, grant.domain, cfg.defaultPortal)));
      if resolvedDomain == "" || !IsPortalAllowed(resolvedDomain, cfg.allowed) {
        return CallbackRefused(403);
      }
      if resolvedDomain != c.portal {
        return CallbackRefused(400);
      }
      var resolvedMemberId := Trim(FirstNonEmpty(c.memberId, grant.memberId, grant.userId));
      if resolvedMemberId == "" {
        return CallbackRefused(502);
      }
      var clientEndpoint := FirstNonEmpty(grant.clientEndpoint, "https://" + resolvedDomain + "/rest/", "");
      callbacks := callbacks[id := Storing(c.state, c.portal, resolvedDomain, resolvedMemberId, clientEndpoint)];
      assert callbacks == old(callbacks)[id := callbacks[id]];
      store.StoreBitrixTokens(resolvedMemberId, GrantedTokens(grant, callbacks[id], now), iv1, iv2, dbOk);
      answer := Nothing;
    }

    method TokensStored(id: nat, uuid: string, now: int) returns (answer: Answer)
      requires id in callbacks && callbacks[id].Storing?
      requires tokens.jwtExpirySeconds == cfg.jwtExpirySeconds
      modifies this, tokens
      ensures (View(), answer) == HandleStored(old(View()), cfg, id, uuid, now)
    {
      var c := callbacks[id];
      var expiresAt := tokens.SignJwt(uuid, c.memberId, c.domain, c.clientEndpoint, now);
      pendingSessions := pendingSessions[c.state := PendingSession(c.portal, Some(Session(uuid, expiresAt, c.memberId, c.domain)))];
      callbacks := callbacks - {id};
      answer := CallbackDone;
    }

    method Poll(state: string) returns (answer: Answer)
      modifies this
      ensures (View(), answer) == HandlePoll(old(View()), state)
    {
      if state == "" || state !in pendingSessions {
        return NoSession;
      }
      var entry := pendingSessions[state];
      if entry.session.None? {
        return StillPending;
      }
      pendingSessions := pendingSessions - {state};
      answer := Delivered(entry.session.value);
    }

    /** The token's own member has its Bitrix24 tokens removed; a refused logout removes nothing. */
    method Logout(token: string, dbOk: bool, now: int) returns (answer: Answer)
      modifies tokens, store
      ensures (View(), answer) == HandleLogout(old(View()), token, now)
      ensures answer.LoggedOut? <==> old(Verify(tokens.View(), token, now)).Some?
      ensures store.View() ==
                if answer.LoggedOut?
                then TokenStore.Removed(old(store.View()), store.setup, old(tokens.View()).issued[token].memberId, dbOk).0
                else old(store.View())
    {
      var user := tokens.VerifyJwt(token, now);
      if user.None? {
        return Unauthorized;
      }
      tokens.BlacklistJwt(token, Some(user.value.exp), now);
      var _ := store.RemoveBitrixTokens(user.value.memberId, dbOk);
      answer := LoggedOut;
    }

    method Refresh(token: string, uuid: string, now: int) returns (answer: Answer)
      requires tokens.jwtExpirySeconds == cfg.jwtExpirySeconds
      modifies tokens
      ensures (View(), answer) == HandleRefresh(old(View()), cfg, token, uuid, now)
    {
      var user := tokens.VerifyJwt(token, now);
      if user.None? {
        return Unauthorized;
      }
      tokens.BlacklistJwt(token, Some(user.value.exp), now);
      var expiresAt := tokens.SignJwt(uuid, user.value.memberId, user.value.domain, user.value.clientEndpoint, now);
      answer := Renewed(uuid, expiresAt);
    }
  }
}
