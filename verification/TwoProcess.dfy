/**
 The extension and the back end as two processes over a network that may lose a request or its reply, or
 deliver a request after the client has stopped waiting.

 The client is `TokenManager`, the back end is the token vault with its sweeps; other users' sessions come
 and go freely. Refreshes, sign-ins and logouts are each a step at either end with a message between:
 `offered` holds tokens signed for a poll to fetch, `departing` the tokens sent with a logout request, which
 may be handled at any later time or never, and `leaving` counts the logouts the client is waiting to end.
 `processed` and `loggedOut` remember which attempt consumed which token and which tokens a logout revoked.
 */
module TwoProcess {
  import opened Common
  import TM = TokenManager
  import opened TokenService

  datatype Reply = Granted(jwt: string, expiresAt: int) | Denied

  datatype World = World(
    client: TM.Client,
    vault: Vault,
    requests: map<nat, string>,
    replies: map<nat, Reply>,
    awaiting: Option<nat>,
    attempts: nat,
    clock: int,
    presented: map<nat, string>,
    processed: map<string, nat>,
    offered: set<string>,
    known: set<string>,
    leaving: nat,
    departing: set<string>,
    loggedOut: set<string>,
    foreign: set<string>)

  datatype Event =
    | Local(e: TM.Event)
    | Sends(at: int)
    | Handles(attempt: nat, jti: string, at: int)
    | RequestLost(attempt: nat, at: int)
    | ReplyLost(attempt: nat, at: int)
    | ReplyArrives(at: int)
    | GivesUp(at: int)
    | Offers(jti: string, at: int)
    | SignsIn(jti: string, at: int)
    | LogsOut(at: int)
    | LogoutHandled(jti: string, at: int)
    | SignsOut(at: int)
    | OtherSignsIn(jti: string, at: int)
    | OtherRevoked(jti: string, at: int)
    | Sweep(at: int)

  function At(e: Event): int {
    if e.Local? then e.e.at else e.at
  }

  /** Client steps that neither send nor receive. */
  predicate Internal(e: TM.Event) {
    e.Call? || e.TimerFires? || e.EnsureFresh? || e.CheckAuthenticated? || e.Persisted? || e.Closed? || e.LoginStored?
    || (e.UrlKnown? && !e.configured)
  }

  predicate Unused(w: World, jti: string) {
    jti !in w.vault.issued && jti !in w.known && jti !in w.foreign && jti !in w.offered
  }

  predicate Enabled(w: World, e: Event) {
    && At(e) >= w.clock
    && match e
       case Local(c) => Internal(c) && TM.Enabled(w.client, c)
       case Sends(now) => TM.Enabled(w.client, TM.UrlKnown(0, true, now))
       case Handles(a, jti, _) => a in w.requests && Unused(w, jti)
       case RequestLost(a, _) => a in w.requests
       case ReplyLost(a, _) => a in w.replies
       case ReplyArrives(now) => w.awaiting.Some? && w.awaiting.value in w.replies && TM.Enabled(w.client, TM.Failed(0, now))
       case GivesUp(now) => w.awaiting.Some? && TM.Enabled(w.client, TM.Failed(0, now))
       case Offers(jti, _) => Unused(w, jti)
       case SignsIn(jti, now) =>
         jti in w.offered && jti in w.vault.issued && TM.Enabled(w.client, TM.Login(jti, w.vault.issued[jti].exp, now))
       case LogsOut(_) => true
       case LogoutHandled(jti, _) => jti in w.departing
       case SignsOut(now) => w.leaving > 0 && TM.Enabled(w.client, TM.Logout(now))
       case OtherSignsIn(jti, _) => Unused(w, jti)
       case OtherRevoked(jti, _) => jti in w.foreign && jti in w.vault.issued
       case Sweep(_) => true
  }

  function Act(w: World, lifetime: nat, e: Event): World
    requires Enabled(w, e)
  {
    match e
    case Local(c) => w.(client := TM.Step(w.client, c))
    case Sends(now) =>
      var client := TM.Step(w.client, TM.UrlKnown(0, true, now));
      if client.running[0].AwaitReply? then
        var jwt := client.running[0].jwt;
        w.(client := client, requests := w.requests[w.attempts := jwt], presented := w.presented[w.attempts := jwt],
           awaiting := Some(w.attempts), attempts := w.attempts + 1)
      else w.(client := client)
    case Handles(a, jti, now) =>
      var token, exp := w.requests[a], Seconds(now) + lifetime;
      var (vault, ok) := Renew(w.vault, token, jti, exp, now);
      w.(vault := vault, requests := w.requests - {a},
         replies := w.replies[a := if ok then Granted(jti, exp) else Denied],
         processed := if ok then w.processed[token := a] else w.processed)
    case RequestLost(a, _) => w.(requests := w.requests - {a})
    case ReplyLost(a, _) => w.(replies := w.replies - {a})
    case ReplyArrives(now) =>
      var a := w.awaiting.value;
      var received := w.(replies := w.replies - {a}, awaiting := None);
      (match w.replies[a]
       case Denied => received.(client := TM.Step(w.client, TM.Refused(0, now)))
       case Granted(jwt, exp) =>
         received.(client := TM.Step(w.client, TM.Renewed(0, jwt, exp, now)), known := w.known + {jwt}))
    case GivesUp(now) => w.(client := TM.Step(w.client, TM.Failed(0, now)), awaiting := None)
    case Offers(jti, now) =>
      w.(vault := Sign(w.vault, jti, "", "", "", Seconds(now) + lifetime), offered := w.offered + {jti})
    case SignsIn(jti, now) =>
      w.(client := TM.Step(w.client, TM.Login(jti, w.vault.issued[jti].exp, now)),
         offered := w.offered - {jti}, known := w.known + {jti})
    case LogsOut(_) =>
      w.(leaving := w.leaving + 1,
         departing := if w.client.cached.Some? then w.departing + {w.client.cached.value.jwt} else w.departing)
    case LogoutHandled(jti, now) =>
      var (vault, ok) := Revoke(w.vault, jti, now);
      w.(vault := vault, loggedOut := if ok then w.loggedOut + {jti} else w.loggedOut)
    case SignsOut(now) => w.(client := TM.Step(w.client, TM.Logout(now)), leaving := w.leaving - 1)
    case OtherSignsIn(jti, now) =>
      w.(vault := Sign(w.vault, jti, "", "", "", Seconds(now) + lifetime), foreign := w.foreign + {jti})
    case OtherRevoked(jti, _) => w.(vault := Blacklist(w.vault, jti, w.vault.issued[jti].exp))
    case Sweep(now) => w.(vault := AfterCleanup(w.vault, now))
  }

  function Next(w: World, lifetime: nat, e: Event): World
    requires Enabled(w, e)
  {
    Act(w, lifetime, e).(clock := At(e))
  }

  predicate ValidRun(w: World, lifetime: nat, es: seq<Event>)
    decreases |es|
  {
    es == [] || (Enabled(w, es[0]) && ValidRun(Next(w, lifetime, es[0]), lifetime, es[1..]))
  }

  function Run(w: World, lifetime: nat, es: seq<Event>): World
    requires ValidRun(w, lifetime, es)
    decreases |es|
  {
    if es == [] then w else Run(Next(w, lifetime, es[0]), lifetime, es[1..])
  }

  function Start(clock: int): World {
    World(TM.LOGGED_OUT, EMPTY, map[], map[], None, 0, clock, map[], map[], {}, {}, 0, {}, {}, {})
  }

  // ---------------------------------------------------------------- invariant

  /** The client's refresh is suspended at its request. */
  predicate Waiting(c: TM.Client) { c.running != [] && c.running[0].AwaitReply? }

  /** The client waits for a reply exactly while its refresh is suspended at the request. */
  ghost predicate ClientOk(w: World) {
    var c := w.client;
    && TM.SingleFlight(c)
    && (w.awaiting.Some? <==> Waiting(c))
    && (w.awaiting.Some? ==>
          && w.awaiting.value in w.presented && c.running[0].jwt == w.presented[w.awaiting.value]
          && (c.cached.Some? ==> c.cached.value.jwt == c.running[0].jwt))
    && (c.cached.Some? ==>
          var t := c.cached.value;
          t.jwt in w.known && t.jwt in w.vault.issued && w.vault.issued[t.jwt].exp == t.expiresAt
          && (t.jwt in w.departing ==> w.leaving > 0))
  }

  ghost predicate NetOk(w: World) {
    && (forall a | a in w.presented :: a < w.attempts && w.presented[a] in w.known)
    && (forall a | a in w.requests :: a in w.presented && w.requests[a] == w.presented[a] && a !in w.replies)
    && (forall a | a in w.replies :: a in w.presented)
    && (forall a | a in w.replies && w.replies[a].Granted? ::
          && Lookup(w.processed, w.presented[a]) == Some(a)
          && var j := w.replies[a].jwt;
             j in w.vault.issued && w.vault.issued[j].exp == w.replies[a].expiresAt
             && j !in w.known && j !in w.foreign && j !in w.offered && j !in w.vault.jtiBlacklist)
  }

  /** No two grants on the way carry the same token. */
  ghost predicate GrantsDiffer(w: World) {
    forall a, b | a in w.replies && b in w.replies && w.replies[a].Granted? && w.replies[b].Granted? && a != b ::
      w.replies[a].jwt != w.replies[b].jwt
  }

  /** Whatever revoked it, a token is on the list for as long as it could verify. */
  ghost predicate Revoked(v: Vault, j: string, clock: int) {
    j in v.issued && ((j in v.jtiBlacklist && v.jtiBlacklist[j] == v.issued[j].exp) || v.issued[j].exp < Seconds(clock))
  }

  /** Why a token is revoked, and how long that is remembered; what sign-in has to offer is untouched. */
  ghost predicate VaultOk(w: World) {
    && (forall j | j in w.processed :: j in w.known && w.processed[j] in w.presented && w.processed[j] !in w.requests
          && w.presented[w.processed[j]] == j)
    && (forall j | j in w.vault.jtiBlacklist :: j in w.processed || j in w.loggedOut || j in w.foreign)
    && (forall j | j in w.processed || j in w.loggedOut :: Revoked(w.vault, j, w.clock))
    && (forall j | j in w.offered ::
          j in w.vault.issued && j !in w.known && j !in w.foreign && j !in w.vault.jtiBlacklist)
    && w.known !! w.foreign && w.known <= w.vault.issued.Keys && w.foreign <= w.vault.issued.Keys
    && w.loggedOut <= w.departing <= w.known
  }

  ghost predicate Inv(w: World) { ClientOk(w) && NetOk(w) && GrantsDiffer(w) && VaultOk(w) }

  // ---------------------------------------------------------------- what a step does to the client

  lemma {:induction false} InternalStep(c: TM.Client, e: TM.Event, d: TM.Client)
    requires TM.SingleFlight(c) && Internal(e) && TM.Enabled(c, e) && d == TM.Step(c, e)
    ensures TM.SingleFlight(d) && (d.cached == c.cached || d.cached == None)
    ensures Waiting(c) || Waiting(d) ==> d.running == c.running
  {
    TM.StepKeepsSingleFlight(c, e);
  }

  lemma {:induction false} SendStep(c: TM.Client, now: int, d: TM.Client)
    requires TM.SingleFlight(c) && TM.Enabled(c, TM.UrlKnown(0, true, now)) && d == TM.Step(c, TM.UrlKnown(0, true, now))
    ensures TM.SingleFlight(d) && !Waiting(c) && d.cached == c.cached
    ensures Waiting(d) <==> c.cached.Some?
    ensures Waiting(d) ==> d.running == [TM.AwaitReply(c.cached.value.jwt)]
  {
    TM.StepKeepsSingleFlight(c, TM.UrlKnown(0, true, now));
    assert c.running == [TM.AwaitUrl];
  }

  /** However an answer ends the wait, the client keeps its token, drops it or takes the new one. */
  lemma {:induction false} AnswerStep(c: TM.Client, e: TM.Event, d: TM.Client)
    requires TM.SingleFlight(c) && TM.Enabled(c, e) && d == TM.Step(c, e)
    requires (e.Refused? || e.Failed? || e.Renewed?) && e.i == 0
    ensures TM.SingleFlight(d) && !Waiting(d)
    ensures e.Refused? ==> d.cached == None
    ensures e.Failed? ==> d.cached == c.cached || d.cached == None
    ensures e.Renewed? ==> d.cached == Some(TM.StoredToken(e.jwt, e.expiresAt))
  {
    TM.StepKeepsSingleFlight(c, e);
    assert c.running == [c.running[0]];
  }

  lemma {:induction false} SignStep(c: TM.Client, e: TM.Event, d: TM.Client)
    requires TM.SingleFlight(c) && TM.Enabled(c, e) && d == TM.Step(c, e) && (e.Login? || e.Logout?)
    ensures TM.SingleFlight(d) && !Waiting(c) && !Waiting(d)
    ensures d.cached == if e.Login? then Some(TM.StoredToken(e.jwt, e.expiresAt)) else None
  {
    TM.StepKeepsSingleFlight(c, e);
  }

  // ---------------------------------------------------------------- every step keeps the invariant

  /** Messages may disappear and the client may move on; nothing else changes. */
  ghost predicate OnlyLess(w: World, w': World) {
    && w' == w.(client := w'.client, requests := w'.requests, replies := w'.replies, awaiting := w'.awaiting,
                leaving := w'.leaving, clock := w'.clock)
    && w.clock <= w'.clock
    && (forall a | a in w'.requests :: a in w.requests && w'.requests[a] == w.requests[a])
    && (forall a | a in w'.replies :: a in w.replies && w'.replies[a] == w.replies[a])
  }

  lemma {:induction false} LessKeepsInv(w: World, w': World)
    requires Inv(w) && OnlyLess(w, w') && ClientOk(w')
    ensures Inv(w')
  {
    assert NetOk(w');
    assert VaultOk(w');
  }

  lemma {:induction false} KeptOrDropped(w: World, w': World)
    requires ClientOk(w) && OnlyLess(w, w') && TM.SingleFlight(w'.client)
    requires (w'.client.cached == w.client.cached && w'.leaving == w.leaving) || w'.client.cached == None
    requires if Waiting(w'.client) then w'.awaiting == w.awaiting && w'.client.running == w.client.running else w'.awaiting == None
    ensures ClientOk(w')
  {}

  /** Events of the client alone. */
  lemma {:induction false} LocalKeepsInv(w: World, lifetime: nat, e: Event)
    requires Inv(w) && Enabled(w, e) && e.Local?
    ensures Inv(Next(w, lifetime, e))
  {
    var d := TM.Step(w.client, e.e);
    InternalStep(w.client, e.e, d);
    var w' := w.(client := d, clock := At(e));
    assert Next(w, lifetime, e) == w';
    KeptOrDropped(w, w');
    LessKeepsInv(w, w');
  }

  lemma {:induction false} LossKeepsInv(w: World, lifetime: nat, e: Event)
    requires Inv(w) && Enabled(w, e) && (e.RequestLost? || e.ReplyLost?)
    ensures Inv(Next(w, lifetime, e))
  {
    var w' := Next(w, lifetime, e);
    KeptOrDropped(w, w');
    LessKeepsInv(w, w');
  }

  /** A request with a fresh number sets off. */
  ghost predicate RequestStep(w: World, w': World, d: TM.Client, jwt: string, now: int) {
    && w.clock <= now && w.awaiting.None? && TM.SingleFlight(d) && w.client.cached.Some? && w.client.cached.value.jwt == jwt
    && d.cached == w.client.cached && d.running == [TM.AwaitReply(jwt)]
    && w' == w.(client := d, requests := w.requests[w.attempts := jwt], presented := w.presented[w.attempts := jwt],
                awaiting := Some(w.attempts), attempts := w.attempts + 1, clock := now)
  }

  lemma {:induction false} RequestKeepsNet(w: World, w': World, d: TM.Client, jwt: string, now: int)
    requires ClientOk(w) && NetOk(w) && RequestStep(w, w', d, jwt, now)
    ensures ClientOk(w') && NetOk(w')
  {
    assert w.attempts !in w.presented && w.attempts !in w.requests && w.attempts !in w.replies;
    assert ClientOk(w');
  }

  lemma {:induction false} RequestKeepsVault(w: World, w': World, d: TM.Client, jwt: string, now: int)
    requires NetOk(w) && VaultOk(w) && RequestStep(w, w', d, jwt, now)
    ensures VaultOk(w')
  {
    assert w.attempts !in w.presented;
  }

  lemma {:induction false} SendsKeepsInv(w: World, lifetime: nat, e: Event)
    requires Inv(w) && Enabled(w, e) && e.Sends?
    ensures Inv(Next(w, lifetime, e))
  {
    var w', d := Next(w, lifetime, e), TM.Step(w.client, TM.UrlKnown(0, true, e.at));
    SendStep(w.client, e.at, d);
    if Waiting(d) {
      RequestKeepsNet(w, w', d, d.running[0].jwt, e.at);
      RequestKeepsVault(w, w', d, d.running[0].jwt, e.at);
    } else {
      assert w' == w.(client := d, clock := e.at);
      KeptOrDropped(w, w');
      LessKeepsInv(w, w');
    }
  }

  /** The awaited grant reaches the client. */
  ghost predicate TakenStep(w: World, w': World, a: nat, d: TM.Client, now: int) {
    && w.clock <= now && a in w.replies && w.replies[a].Granted? && TM.SingleFlight(d) && !Waiting(d)
    && d.cached == Some(TM.StoredToken(w.replies[a].jwt, w.replies[a].expiresAt))
    && w' == w.(client := d, replies := w.replies - {a}, awaiting := None, known := w.known + {w.replies[a].jwt}, clock := now)
  }

  lemma {:induction false} TakenKeepsInv(w: World, w': World, a: nat, d: TM.Client, now: int)
    requires Inv(w) && TakenStep(w, w', a, d, now)
    ensures Inv(w')
  {
    assert NetOk(w');
    assert VaultOk(w');
    assert ClientOk(w');
  }

  lemma {:induction false} ReplyKeepsInv(w: World, lifetime: nat, e: Event)
    requires Inv(w) && Enabled(w, e) && e.ReplyArrives?
    ensures Inv(Next(w, lifetime, e))
  {
    var w', a := Next(w, lifetime, e), w.awaiting.value;
    if w.replies[a].Granted? {
      var renewed := TM.Renewed(0, w.replies[a].jwt, w.replies[a].expiresAt, e.at);
      AnswerStep(w.client, renewed, TM.Step(w.client, renewed));
      TakenKeepsInv(w, w', a, w'.client, e.at);
    } else {
      AnswerStep(w.client, TM.Refused(0, e.at), TM.Step(w.client, TM.Refused(0, e.at)));
      KeptOrDropped(w, w');
      LessKeepsInv(w, w');
    }
  }

  lemma {:induction false} GivesUpKeepsInv(w: World, lifetime: nat, e: Event)
    requires Inv(w) && Enabled(w, e) && e.GivesUp?
    ensures Inv(Next(w, lifetime, e))
  {
    var w' := Next(w, lifetime, e);
    AnswerStep(w.client, TM.Failed(0, e.at), TM.Step(w.client, TM.Failed(0, e.at)));
    KeptOrDropped(w, w');
    LessKeepsInv(w, w');
  }

  /** A token is issued, to be fetched by the client's poll or for someone else. */
  ghost predicate SignStepped(w: World, w': World, jti: string, user: Claims, ours: bool, now: int) {
    && w.clock <= now && Unused(w, jti)
    && w' == w.(vault := w.vault.(issued := w.vault.issued[jti := user]),
                offered := if ours then w.offered + {jti} else w.offered,
                foreign := if ours then w.foreign else w.foreign + {jti}, clock := now)
  }

  lemma {:induction false} SignKeepsNet(w: World, w': World, jti: string, user: Claims, ours: bool, now: int)
    requires ClientOk(w) && NetOk(w) && SignStepped(w, w', jti, user, ours, now)
    ensures ClientOk(w') && NetOk(w')
  {}

  lemma {:induction false} SignKeepsVault(w: World, w': World, jti: string, user: Claims, ours: bool, now: int)
    requires VaultOk(w) && SignStepped(w, w', jti, user, ours, now)
    ensures VaultOk(w')
  {}

  lemma {:induction false} SignKeepsInv(w: World, lifetime: nat, e: Event)
    requires Inv(w) && Enabled(w, e) && (e.Offers? || e.OtherSignsIn?)
    ensures Inv(Next(w, lifetime, e))
  {
    var w' := Next(w, lifetime, e);
    SignKeepsNet(w, w', e.jti, w'.vault.issued[e.jti], e.Offers?, e.at);
    SignKeepsVault(w, w', e.jti, w'.vault.issued[e.jti], e.Offers?, e.at);
  }

  /** The client's poll brings the token that sign-in offers. */
  ghost predicate FetchStep(w: World, w': World, jti: string, d: TM.Client, now: int) {
    && w.clock <= now && jti in w.offered && jti in w.vault.issued
    && !Waiting(w.client) && TM.SingleFlight(d) && !Waiting(d)
    && d.cached == Some(TM.StoredToken(jti, w.vault.issued[jti].exp))
    && w' == w.(client := d, offered := w.offered - {jti}, known := w.known + {jti}, clock := now)
  }

  lemma {:induction false} FetchKeepsInv(w: World, w': World, jti: string, d: TM.Client, now: int)
    requires Inv(w) && FetchStep(w, w', jti, d, now)
    ensures Inv(w')
  {
    assert NetOk(w');
    assert VaultOk(w');
    assert ClientOk(w');
  }

  lemma {:induction false} SignsInKeepsInv(w: World, lifetime: nat, e: Event)
    requires Inv(w) && Enabled(w, e) && e.SignsIn?
    ensures Inv(Next(w, lifetime, e))
  {
    var w', login := Next(w, lifetime, e), TM.Login(e.jti, w.vault.issued[e.jti].exp, e.at);
    SignStep(w.client, login, TM.Step(w.client, login));
    FetchKeepsInv(w, w', e.jti, w'.client, e.at);
  }

  // ---------------------------------------------------------------- logging out

  /** The logout request sets off; the client keeps its token until the request has ended. */
  lemma {:induction false} LogsOutKeepsInv(w: World, lifetime: nat, e: Event)
    requires Inv(w) && Enabled(w, e) && e.LogsOut?
    ensures Inv(Next(w, lifetime, e))
  {
    var w' := Next(w, lifetime, e);
    assert NetOk(w');
    assert VaultOk(w');
  }

  lemma {:induction false} RevocationKeepsInv(w: World, w': World, token: string, now: int)
    requires Inv(w) && token in w.departing && token in w.vault.issued && w.clock <= now
    requires w' == w.(vault := Blacklist(w.vault, token, w.vault.issued[token].exp), loggedOut := w.loggedOut + {token}, clock := now)
    ensures Inv(w')
  {
    assert NetOk(w');
    assert VaultOk(w');
  }

  lemma {:induction false} LogoutHandledKeepsInv(w: World, lifetime: nat, e: Event)
    requires Inv(w) && Enabled(w, e) && e.LogoutHandled?
    ensures Inv(Next(w, lifetime, e))
  {
    var w' := Next(w, lifetime, e);
    if Verify(w.vault, e.jti, e.at).Some? {
      RevocationKeepsInv(w, w', e.jti, e.at);
    } else {
      assert w' == w.(clock := e.at);
      LessKeepsInv(w, w');
    }
  }

  lemma {:induction false} SignOutKeepsInv(w: World, lifetime: nat, e: Event)
    requires Inv(w) && Enabled(w, e) && e.SignsOut?
    ensures Inv(Next(w, lifetime, e))
  {
    var w' := Next(w, lifetime, e);
    SignStep(w.client, TM.Logout(e.at), w'.client);
    KeptOrDropped(w, w');
    LessKeepsInv(w, w');
  }

  lemma {:induction false} OtherRevokedKeepsInv(w: World, lifetime: nat, e: Event)
    requires Inv(w) && Enabled(w, e) && e.OtherRevoked?
    ensures Inv(Next(w, lifetime, e))
  {
    var w' := Next(w, lifetime, e);
    assert NetOk(w');
    assert VaultOk(w');
  }

  lemma {:induction false} SweepKeepsInv(w: World, lifetime: nat, e: Event)
    requires Inv(w) && Enabled(w, e) && e.Sweep?
    ensures Inv(Next(w, lifetime, e))
  {
    var w' := Next(w, lifetime, e);
    assert NetOk(w');
    assert VaultOk(w');
  }

  /** The back end consumes a token and its grant sets off. */
  ghost predicate GrantStep(w: World, w': World, a: nat, token: string, jti: string, user: Claims, now: int) {
    && w.clock <= now && a in w.requests && token == w.requests[a]
    && Unused(w, jti) && token in w.vault.issued && token !in w.vault.jtiBlacklist && Seconds(now) < w.vault.issued[token].exp
    && w' == w.(
         vault := w.vault.(jtiBlacklist := w.vault.jtiBlacklist[token := w.vault.issued[token].exp],
                           issued := w.vault.issued[jti := user]),
         requests := w.requests - {a}, replies := w.replies[a := Granted(jti, user.exp)],
         processed := w.processed[token := a], clock := now)
  }

  lemma {:induction false} GrantKeepsNet(w: World, w': World, a: nat, token: string, jti: string, user: Claims, now: int)
    requires NetOk(w) && VaultOk(w) && GrantStep(w, w', a, token, jti, user, now)
    ensures NetOk(w')
  {
    assert token in w.known && token !in w.processed && jti !in w.vault.jtiBlacklist;
    forall b | b in w'.replies && w'.replies[b].Granted?
      ensures Lookup(w'.processed, w'.presented[b]) == Some(b)
      ensures var j := w'.replies[b].jwt;
              j in w'.vault.issued && w'.vault.issued[j].exp == w'.replies[b].expiresAt
              && j !in w'.known && j !in w'.foreign && j !in w'.offered && j !in w'.vault.jtiBlacklist
    {
      if b != a {
        assert b in w.replies && w.presented[b] in w.processed && w.replies[b].jwt != jti;
      }
    }
  }

  lemma {:induction false} GrantKeepsVault(w: World, w': World, a: nat, token: string, jti: string, user: Claims, now: int)
    requires NetOk(w) && VaultOk(w) && GrantStep(w, w', a, token, jti, user, now)
    ensures VaultOk(w')
  {}

  lemma {:induction false} GrantKeepsClient(w: World, w': World, a: nat, token: string, jti: string, user: Claims, now: int)
    requires ClientOk(w) && GrantStep(w, w', a, token, jti, user, now)
    ensures ClientOk(w')
  {}

  lemma {:induction false} GrantsStayDifferent(w: World, w': World, a: nat, token: string, jti: string, user: Claims, now: int)
    requires NetOk(w) && GrantsDiffer(w) && GrantStep(w, w', a, token, jti, user, now)
    ensures GrantsDiffer(w')
  {
    assert forall b | b in w.replies && w.replies[b].Granted? :: w.replies[b].jwt in w.vault.issued;
  }

  lemma {:induction false} GrantKeepsInv(w: World, w': World, a: nat, token: string, jti: string, user: Claims, now: int)
    requires Inv(w) && GrantStep(w, w', a, token, jti, user, now)
    ensures Inv(w')
  {
    GrantKeepsClient(w, w', a, token, jti, user, now);
    GrantsStayDifferent(w, w', a, token, jti, user, now);
    GrantKeepsNet(w, w', a, token, jti, user, now);
    GrantKeepsVault(w, w', a, token, jti, user, now);
  }

  lemma {:induction false} DenialKeepsInv(w: World, w': World, a: nat, now: int)
    requires Inv(w) && a in w.requests && w.clock <= now
    requires w' == w.(requests := w.requests - {a}, replies := w.replies[a := Denied], clock := now)
    ensures Inv(w')
  {
    assert NetOk(w');
    assert VaultOk(w');
  }

  lemma {:induction false} HandlesKeepsInv(w: World, lifetime: nat, e: Event)
    requires Inv(w) && Enabled(w, e) && e.Handles?
    ensures Inv(Next(w, lifetime, e))
  {
    var w', token := Next(w, lifetime, e), w.requests[e.attempt];
    if Verify(w.vault, token, e.at).Some? {
      var u := w.vault.issued[token];
      GrantKeepsInv(w, w', e.attempt, token, e.jti, u.(exp := Seconds(e.at) + lifetime), e.at);
    } else {
      DenialKeepsInv(w, w', e.attempt, e.at);
    }
  }

  lemma {:induction false} StepKeepsInv(w: World, lifetime: nat, e: Event)
    requires Inv(w) && Enabled(w, e)
    ensures Inv(Next(w, lifetime, e))
  {
    match e {
      case Local(_) => LocalKeepsInv(w, lifetime, e);
      case Sends(_) => SendsKeepsInv(w, lifetime, e);
      case Handles(_, _, _) => HandlesKeepsInv(w, lifetime, e);
      case RequestLost(_, _) => LossKeepsInv(w, lifetime, e);
      case ReplyLost(_, _) => LossKeepsInv(w, lifetime, e);
      case ReplyArrives(_) => ReplyKeepsInv(w, lifetime, e);
      case GivesUp(_) => GivesUpKeepsInv(w, lifetime, e);
      case Offers(_, _) => SignKeepsInv(w, lifetime, e);
      case SignsIn(_, _) => SignsInKeepsInv(w, lifetime, e);
      case LogsOut(_) => LogsOutKeepsInv(w, lifetime, e);
      case LogoutHandled(_, _) => LogoutHandledKeepsInv(w, lifetime, e);
      case SignsOut(_) => SignOutKeepsInv(w, lifetime, e);
      case OtherSignsIn(_, _) => SignKeepsInv(w, lifetime, e);
      case OtherRevoked(_, _) => OtherRevokedKeepsInv(w, lifetime, e);
      case Sweep(_) => SweepKeepsInv(w, lifetime, e);
    }
  }

  lemma {:induction false} RunKeepsInv(w: World, lifetime: nat, es: seq<Event>)
    requires Inv(w) && ValidRun(w, lifetime, es)
    ensures Inv(Run(w, lifetime, es))
    decreases |es|
  {
    if es != [] {
      StepKeepsInv(w, lifetime, es[0]);
      RunKeepsInv(Next(w, lifetime, es[0]), lifetime, es[1..]);
    }
  }

  // ---------------------------------------------------------------- the session between the two

  /**
   In every run, the client's unexpired token is accepted by the back end exactly when no refresh that
   presented it has been processed and no logout of it has been carried out: unless, that is, such a
   refresh's reply is on its way or was lost, or the client is still waiting for its own logout to end.
   */
  lemma {:induction false} TokenAcceptedUnlessConsumed(lifetime: nat, es: seq<Event>, clock: int, now: int)
    requires ValidRun(Start(clock), lifetime, es)
    requires var w := Run(Start(clock), lifetime, es);
             now >= w.clock && w.client.cached.Some? && TM.Unexpired(w.client.cached.value, now)
    ensures var w := Run(Start(clock), lifetime, es);
            var token := w.client.cached.value.jwt;
            && (Verify(w.vault, token, now).Some? <==> token !in w.processed && token !in w.loggedOut)
            && (token in w.loggedOut ==> w.leaving > 0)
            && (token in w.processed ==>
                  Lookup(w.presented, w.processed[token]) == Some(token) && w.processed[token] !in w.requests)
  {
    RunKeepsInv(Start(clock), lifetime, es);
  }

  lemma {:induction false} ConsumedTokenIsRefused(w: World, lifetime: nat, a: nat, jti: string, now: int)
    requires Inv(w) && a in w.presented && w.presented[a] in w.processed && w.processed[w.presented[a]] != a
    ensures Enabled(w, Handles(a, jti, now)) ==> Next(w, lifetime, Handles(a, jti, now)).replies[a] == Denied
    ensures a in w.replies ==> w.replies[a] == Denied
  {}

  lemma {:induction false} DenialClears(w: World, lifetime: nat, now: int)
    requires Inv(w) && Enabled(w, ReplyArrives(now)) && w.replies[w.awaiting.value] == Denied
    ensures Next(w, lifetime, ReplyArrives(now)).client.cached == None
  {
    AnswerStep(w.client, TM.Refused(0, now), TM.Step(w.client, TM.Refused(0, now)));
  }

  /**
   In every run, once the client's token has been consumed by an attempt, any other attempt that presented
   it is answered with a denial, and when such a denial reaches the client it gives the token up.
   */
  lemma {:induction false} NextAnswerAfterLossIsARefusal(lifetime: nat, es: seq<Event>, clock: int, a: nat, jti: string, now: int)
    requires ValidRun(Start(clock), lifetime, es)
    requires var w := Run(Start(clock), lifetime, es);
             && w.client.cached.Some? && w.client.cached.value.jwt in w.processed
             && a in w.presented && w.presented[a] == w.client.cached.value.jwt
             && w.processed[w.client.cached.value.jwt] != a
    ensures var w := Run(Start(clock), lifetime, es);
            && (Enabled(w, Handles(a, jti, now)) ==> Next(w, lifetime, Handles(a, jti, now)).replies[a] == Denied)
            && (a in w.replies ==> w.replies[a] == Denied)
            && (w.awaiting == Some(a) && Enabled(w, ReplyArrives(now)) ==>
                  Next(w, lifetime, ReplyArrives(now)).client.cached == None)
  {
    RunKeepsInv(Start(clock), lifetime, es);
    var w := Run(Start(clock), lifetime, es);
    ConsumedTokenIsRefused(w, lifetime, a, jti, now);
    if w.awaiting == Some(a) && Enabled(w, ReplyArrives(now)) { DenialClears(w, lifetime, now); }
  }

  lemma {:induction false} GrantServes(w: World, lifetime: nat, now: int)
    requires Inv(w) && Enabled(w, ReplyArrives(now)) && w.replies[w.awaiting.value].Granted?
    ensures var v := Next(w, lifetime, ReplyArrives(now));
            && v.client.cached.Some?
            && (TM.Unexpired(v.client.cached.value, now) ==> Verify(v.vault, v.client.cached.value.jwt, now).Some?)
  {
    var g := w.replies[w.awaiting.value];
    var renewed := TM.Renewed(0, g.jwt, g.expiresAt, now);
    AnswerStep(w.client, renewed, TM.Step(w.client, renewed));
  }

  /** A grant that does reach the client leaves it with a token the back end accepts until it expires. */
  lemma {:induction false} DeliveredGrantIsAccepted(lifetime: nat, es: seq<Event>, clock: int, now: int)
    requires ValidRun(Start(clock), lifetime, es)
    requires var w := Run(Start(clock), lifetime, es);
             Enabled(w, ReplyArrives(now)) && w.replies[w.awaiting.value].Granted?
    ensures var v := Next(Run(Start(clock), lifetime, es), lifetime, ReplyArrives(now));
            && v.client.cached.Some?
            && (TM.Unexpired(v.client.cached.value, now) ==> Verify(v.vault, v.client.cached.value.jwt, now).Some?)
  {
    RunKeepsInv(Start(clock), lifetime, es);
    GrantServes(Run(Start(clock), lifetime, es), lifetime, now);
  }

  /** Nothing that was on its way to the client has gone missing after the back end acted on it. */
  predicate NothingLost(w: World, e: Event) {
    match e
    case ReplyLost(a, _) => w.awaiting != Some(a) || (a in w.replies && w.replies[a].Denied?)
    case GivesUp(_) => w.awaiting.Some? && w.awaiting.value !in w.requests &&
                       (w.awaiting.value in w.replies ==> w.replies[w.awaiting.value].Denied?)
    case _ => true
  }

  predicate Lossless(w: World, lifetime: nat, es: seq<Event>)
    requires ValidRun(w, lifetime, es)
    decreases |es|
  {
    es == [] || (NothingLost(w, es[0]) && Lossless(Next(w, lifetime, es[0]), lifetime, es[1..]))
  }

  /** Requests alive in the network are only the one awaited, and its grant, if any, is on its way. */
  ghost predicate InTouch(w: World) {
    && (forall a | a in w.requests :: w.awaiting == Some(a))
    && (w.client.cached.Some? && w.client.cached.value.jwt in w.processed ==>
          var a := w.processed[w.client.cached.value.jwt];
          w.awaiting == Some(a) && a in w.replies && w.replies[a].Granted?)
  }

  lemma {:induction false} RequestKeepsTouch(w: World, w': World, d: TM.Client, jwt: string, now: int)
    requires InTouch(w) && RequestStep(w, w', d, jwt, now)
    ensures InTouch(w')
  {}

  lemma {:induction false} TakenKeepsTouch(w: World, w': World, a: nat, d: TM.Client, now: int)
    requires Inv(w) && InTouch(w) && w.awaiting == Some(a) && TakenStep(w, w', a, d, now)
    ensures InTouch(w')
  {}

  /** The awaited request is answered, with a grant or with a denial. */
  lemma {:induction false} HandlingKeepsTouch(w: World, w': World, a: nat, reply: Reply)
    requires Inv(w) && InTouch(w) && a in w.requests && w'.client == w.client && w'.awaiting == w.awaiting
    requires w'.requests == w.requests - {a} && w'.replies == w.replies[a := reply]
    requires w'.processed == if reply.Granted? then w.processed[w.requests[a] := a] else w.processed
    ensures InTouch(w')
  {}

  lemma {:induction false} DroppedKeepsTouch(w: World, w': World)
    requires w'.client.cached.None? && w'.requests == map[]
    ensures InTouch(w')
  {}

  lemma {:induction false} SignedInKeepsTouch(w: World, w': World, jti: string)
    requires Inv(w) && InTouch(w) && !Waiting(w.client) && jti !in w.known
    requires w'.requests == w.requests && w'.processed == w.processed
    requires w'.client.cached.Some? && w'.client.cached.value.jwt == jti
    ensures InTouch(w')
  {}

  lemma {:induction false} GivesUpKeepsTouch(w: World, lifetime: nat, e: Event)
    requires Inv(w) && InTouch(w) && Enabled(w, e) && NothingLost(w, e) && e.GivesUp?
    ensures InTouch(Next(w, lifetime, e))
  {
    var d := TM.Step(w.client, TM.Failed(0, e.at));
    AnswerStep(w.client, TM.Failed(0, e.at), d);
    assert w.requests == map[];
    assert Next(w, lifetime, e) == w.(client := d, awaiting := None, clock := e.at);
  }

  lemma {:induction false} ReplyKeepsTouch(w: World, lifetime: nat, e: Event)
    requires Inv(w) && InTouch(w) && Enabled(w, e) && e.ReplyArrives?
    ensures InTouch(Next(w, lifetime, e))
  {
    var w', a := Next(w, lifetime, e), w.awaiting.value;
    if w.replies[a].Granted? {
      var renewed := TM.Renewed(0, w.replies[a].jwt, w.replies[a].expiresAt, e.at);
      AnswerStep(w.client, renewed, TM.Step(w.client, renewed));
      TakenKeepsTouch(w, w', a, w'.client, e.at);
    } else {
      assert w.requests == map[];
      DroppedKeepsTouch(w, w');
    }
  }

  lemma {:induction false} SendKeepsTouch(w: World, lifetime: nat, e: Event)
    requires Inv(w) && InTouch(w) && Enabled(w, e) && e.Sends?
    ensures InTouch(Next(w, lifetime, e))
  {
    var w', d := Next(w, lifetime, e), TM.Step(w.client, TM.UrlKnown(0, true, e.at));
    SendStep(w.client, e.at, d);
    if Waiting(d) { RequestKeepsTouch(w, w', d, d.running[0].jwt, e.at); }
  }

  lemma {:induction false} SignKeepsTouch(w: World, lifetime: nat, e: Event)
    requires Inv(w) && InTouch(w) && Enabled(w, e) && (e.SignsIn? || e.SignsOut?)
    ensures InTouch(Next(w, lifetime, e))
  {
    var w' := Next(w, lifetime, e);
    assert w.requests == map[];
    if e.SignsIn? {
      SignStep(w.client, TM.Login(e.jti, w.vault.issued[e.jti].exp, e.at), w'.client);
      SignedInKeepsTouch(w, w', e.jti);
    } else {
      DroppedKeepsTouch(w, w');
    }
  }

  /** Steps that answer nothing and hand the client nothing. */
  lemma {:induction false} QuietKeepsTouch(w: World, lifetime: nat, e: Event)
    requires Inv(w) && InTouch(w) && Enabled(w, e) && NothingLost(w, e)
    requires e.Local? || e.RequestLost? || e.ReplyLost? || e.Offers? || e.LogsOut? || e.LogoutHandled?
          || e.OtherSignsIn? || e.OtherRevoked? || e.Sweep?
    ensures InTouch(Next(w, lifetime, e))
  {
    if e.Local? { InternalStep(w.client, e.e, TM.Step(w.client, e.e)); }
  }

  lemma {:induction false} StepKeepsInTouch(w: World, lifetime: nat, e: Event)
    requires Inv(w) && InTouch(w) && Enabled(w, e) && NothingLost(w, e)
    ensures InTouch(Next(w, lifetime, e))
  {
    if e.Sends? {
      SendKeepsTouch(w, lifetime, e);
    } else if e.Handles? {
      var w' := Next(w, lifetime, e);
      HandlingKeepsTouch(w, w', e.attempt, w'.replies[e.attempt]);
    } else if e.ReplyArrives? {
      ReplyKeepsTouch(w, lifetime, e);
    } else if e.GivesUp? {
      GivesUpKeepsTouch(w, lifetime, e);
    } else if e.SignsIn? || e.SignsOut? {
      SignKeepsTouch(w, lifetime, e);
    } else {
      QuietKeepsTouch(w, lifetime, e);
    }
  }

  /**
   If requests and denials may be lost but no grant is, and the client only stops waiting for requests that
   are gone, then whenever no refresh of the client is waiting its unexpired token is accepted, unless its
   own logout has been carried out and the client is about to drop it.
   */
  lemma {:induction false} AcceptedWhileNothingIsLost(w: World, lifetime: nat, es: seq<Event>, now: int)
    requires Inv(w) && InTouch(w) && ValidRun(w, lifetime, es) && Lossless(w, lifetime, es)
    requires now >= Run(w, lifetime, es).clock
    ensures var v := Run(w, lifetime, es);
            v.awaiting.None? && v.client.cached.Some? && TM.Unexpired(v.client.cached.value, now) ==>
              && (Verify(v.vault, v.client.cached.value.jwt, now).Some? <==> v.client.cached.value.jwt !in v.loggedOut)
              && (v.client.cached.value.jwt in v.loggedOut ==> v.leaving > 0)
    decreases |es|
  {
    if es != [] {
      StepKeepsInv(w, lifetime, es[0]);
      StepKeepsInTouch(w, lifetime, es[0]);
      AcceptedWhileNothingIsLost(Next(w, lifetime, es[0]), lifetime, es[1..], now);
    }
  }

  /** In particular in every such run of a client and a back end that have just started. */
  lemma {:induction false} AcceptedFromStart(lifetime: nat, es: seq<Event>, clock: int, now: int)
    requires ValidRun(Start(clock), lifetime, es) && Lossless(Start(clock), lifetime, es)
    requires now >= Run(Start(clock), lifetime, es).clock
    ensures var v := Run(Start(clock), lifetime, es);
            v.awaiting.None? && v.leaving == 0 && v.client.cached.Some? && TM.Unexpired(v.client.cached.value, now) ==>
              Verify(v.vault, v.client.cached.value.jwt, now).Some?
  {
    AcceptedWhileNothingIsLost(Start(clock), lifetime, es, now);
  }

  // ---------------------------------------------------------------- what every message achieves

  /** In every run, a refresh request that arrives is granted exactly when its token is unexpired and still unspent. */
  lemma {:induction false} GrantedExactlyWhenUnspent(lifetime: nat, es: seq<Event>, clock: int, a: nat, jti: string, now: int)
    requires ValidRun(Start(clock), lifetime, es)
    requires Enabled(Run(Start(clock), lifetime, es), Handles(a, jti, now))
    ensures var w := Run(Start(clock), lifetime, es);
            var token := w.requests[a];
            && token in w.vault.issued
            && Next(w, lifetime, Handles(a, jti, now)).replies[a]
               == if Seconds(now) < w.vault.issued[token].exp && token !in w.processed && token !in w.loggedOut
                  then Granted(jti, Seconds(now) + lifetime) else Denied
  {
    RunKeepsInv(Start(clock), lifetime, es);
  }

  /** A refresh the client sends presents its cached token, and the client waits for exactly that request. */
  lemma {:induction false} SendPresentsCached(w: World, lifetime: nat, now: int)
    requires Inv(w) && Enabled(w, Sends(now))
    ensures var v := Next(w, lifetime, Sends(now));
            if w.client.cached.Some?
            then v.awaiting == Some(w.attempts) && Lookup(v.requests, w.attempts) == Some(w.client.cached.value.jwt)
            else v.awaiting.None? && v.requests == w.requests
  {
    SendStep(w.client, now, TM.Step(w.client, TM.UrlKnown(0, true, now)));
  }

  /** A grant that arrives becomes the client's token; a denial takes its token away. */
  lemma {:induction false} ReplyDecides(w: World, lifetime: nat, now: int)
    requires Inv(w) && Enabled(w, ReplyArrives(now))
    ensures Next(w, lifetime, ReplyArrives(now)).client.cached ==
              match w.replies[w.awaiting.value]
              case Granted(jwt, expiresAt) => Some(TM.StoredToken(jwt, expiresAt))
              case Denied => None
  {
    match w.replies[w.awaiting.value] {
      case Granted(jwt, expiresAt) =>
        var renewed := TM.Renewed(0, jwt, expiresAt, now);
        AnswerStep(w.client, renewed, TM.Step(w.client, renewed));
      case Denied => DenialClears(w, lifetime, now);
    }
  }

  /** A callback's token waits to be fetched; so do the tokens of others, for whom it is theirs. */
  lemma {:induction false} OfferWaits(w: World, lifetime: nat, jti: string, now: int)
    requires Inv(w) && now >= w.clock && Unused(w, jti)
    ensures var v := Next(w, lifetime, Offers(jti, now));
            && jti in v.offered && jti in v.vault.issued && v.vault.issued[jti].exp == Seconds(now) + lifetime
    ensures jti in Next(w, lifetime, OtherSignsIn(jti, now)).foreign
  {}

  /** The only losses excluded are those of a grant the client is waiting for, and of the wait for one. */
  lemma {:induction false} OnlyGrantsMustArrive(w: World, e: Event)
    requires Enabled(w, e)
    ensures e.ReplyLost? ==> (NothingLost(w, e) <==> w.awaiting != Some(e.attempt) || w.replies[e.attempt].Denied?)
    ensures e.GivesUp? ==>
              (NothingLost(w, e) <==>
                 && w.awaiting.value !in w.requests
                 && (w.awaiting.value in w.replies ==> w.replies[w.awaiting.value].Denied?))
    ensures !e.ReplyLost? && !e.GivesUp? ==> NothingLost(w, e)
  {}

  /** The token fetched at sign-in becomes the client's, and verifies until it expires. */
  lemma {:induction false} SignInServes(w: World, lifetime: nat, jti: string, now: int)
    requires Inv(w) && Enabled(w, SignsIn(jti, now))
    ensures var v := Next(w, lifetime, SignsIn(jti, now));
            && v.client.cached == Some(TM.StoredToken(jti, w.vault.issued[jti].exp))
            && (Verify(v.vault, jti, now).Some? <==> Seconds(now) < w.vault.issued[jti].exp)
  {
    var login := TM.Login(jti, w.vault.issued[jti].exp, now);
    SignStep(w.client, login, TM.Step(w.client, login));
  }

  /** A logout may be asked for at any time and takes the client's token with it. */
  lemma {:induction false} LogoutSetsOff(w: World, lifetime: nat, now: int)
    requires now >= w.clock
    ensures var v := Next(w, lifetime, LogsOut(now));
            && v.leaving == w.leaving + 1 && v.client == w.client && w.departing <= v.departing
            && (w.client.cached.Some? ==> w.client.cached.value.jwt in v.departing)
  {}

  /** The back end carries it out exactly for a token that verifies, which it then does no longer. */
  lemma {:induction false} LogoutRevokes(w: World, lifetime: nat, jti: string, now: int)
    requires Enabled(w, LogoutHandled(jti, now))
    ensures var v := Next(w, lifetime, LogoutHandled(jti, now));
            && (jti in v.loggedOut <==> jti in w.loggedOut || Verify(w.vault, jti, now).Some?)
            && Verify(v.vault, jti, now).None?
  {}

  /** However the request ended, the client then holds no token. */
  lemma {:induction false} LogoutClears(w: World, lifetime: nat, now: int)
    requires Enabled(w, SignsOut(now))
    ensures var v := Next(w, lifetime, SignsOut(now)); v.client.cached.None? && v.leaving == w.leaving - 1
  {}

  lemma {:induction false} LoggedOutStays(w: World, lifetime: nat, es: seq<Event>, j: string)
    requires ValidRun(w, lifetime, es) && j in w.loggedOut
    ensures j in Run(w, lifetime, es).loggedOut && Run(w, lifetime, es).clock >= w.clock
    decreases |es|
  {
    if es != [] { LoggedOutStays(Next(w, lifetime, es[0]), lifetime, es[1..], j); }
  }

  /** A token whose logout was carried out never verifies again, in any continuation. */
  lemma {:induction false} LogoutIsFinal(w: World, lifetime: nat, es: seq<Event>, j: string, now: int)
    requires Inv(w) && j in w.loggedOut && ValidRun(w, lifetime, es) && now >= Run(w, lifetime, es).clock
    ensures Verify(Run(w, lifetime, es).vault, j, now).None?
  {
    LoggedOutStays(w, lifetime, es, j);
    RunKeepsInv(w, lifetime, es);
    assert Revoked(Run(w, lifetime, es).vault, j, Run(w, lifetime, es).clock);
  }
}
