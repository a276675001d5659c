/**
 Coalesced Bitrix24 token refreshes against a server that rotates its refresh token on every use
 (section 6 of RFC 6749).

 One exchange suspends four times: reading the stored tokens, waiting for the server, reading the
 reply, and writing the new pair. Calls for any member may arrive at every suspension, and members log in
 and out between their own exchanges. A request the client has given up on may still reach the server.
 Tokens are numbers that the server never issues twice.
 */
module RefreshRotation {
  import opened Common

  type Member = string
  type Token = nat

  datatype Tokens = Tokens(access: Token, refresh: Token)

  datatype Stage =
    | Reading(tokens: Option<Tokens>)
    | Sent(refresh: Token)
    | Answered(grant: Option<Tokens>)
    | Storing(access: Token)

  datatype Exchange = Exchange(member: Member, stage: Stage)

  /** What a caller of refreshAccessToken finally receives; None is the thrown error. */
  type Outcome = Option<Token>

  datatype Client = Client(
    cache: map<Member, Tokens>,
    refreshInFlight: map<Member, nat>,
    exchanges: map<nat, Exchange>,
    waiting: map<nat, nat>,
    resumed: map<nat, Outcome>)

  /** The authorization server: the refresh token it accepts for each member, and the next unused number. */
  datatype Server = Server(valid: map<Member, Token>, unused: Token)

  datatype Request = Request(member: Member, refresh: Token)

  /**
   `astray` holds requests the client stopped waiting for, which may be answered at any later time. `lost`
   holds the members for whom, since their last login, a rotated pair never arrived.
   */
  datatype World = World(client: Client, server: Server, started: nat, astray: set<Request>, lost: set<Member>)

  datatype Event =
    | Refresh(caller: nat, member: Member)
    | TokensRead(x: nat)
    | ServerAnswers(x: nat)
    | RequestFails(x: nat)
    | ReplyLost(x: nat)
    | ReplyArrives(x: nat)
    | TokensStored(x: nat)
    | AnsweredLate(request: Request)
    | Login(member: Member)
    | Logout(member: Member)

  // ---------------------------------------------------------------- the client's steps

  /** refreshAccessToken: join the exchange in flight, or start one and register it. */
  function Join(c: Client, caller: nat, m: Member, next: nat): Client {
    if m in c.refreshInFlight then c.(waiting := c.waiting[caller := c.refreshInFlight[m]])
    else
      c.(refreshInFlight := c.refreshInFlight[m := next],
         exchanges := c.exchanges[next := Exchange(m, Reading(Lookup(c.cache, m)))],
         waiting := c.waiting[caller := next])
  }

  /** The exchange settles: its registration is dropped and every caller awaiting it resumes. */
  function Settle(c: Client, x: nat, outcome: Outcome): Client
    requires x in c.exchanges
  {
    c.(refreshInFlight := c.refreshInFlight - {c.exchanges[x].member},
       exchanges := c.exchanges - {x},
       waiting := map k | k in c.waiting && c.waiting[k] != x :: c.waiting[k],
       resumed := c.resumed + map k | k in c.waiting && c.waiting[k] == x :: outcome)
  }

  function At(c: Client, x: nat, stage: Stage): Client
    requires x in c.exchanges
  {
    c.(exchanges := c.exchanges[x := c.exchanges[x].(stage := stage)])
  }

  function Send(c: Client, x: nat): Client
    requires x in c.exchanges && c.exchanges[x].stage.Reading?
  {
    var tokens := c.exchanges[x].stage.tokens;
    if tokens.None? then Settle(c, x, None) else At(c, x, Sent(tokens.value.refresh))
  }

  function Receive(c: Client, x: nat): Client
    requires x in c.exchanges && c.exchanges[x].stage.Answered?
  {
    var grant := c.exchanges[x].stage.grant;
    if grant.None? then Settle(c, x, None)
    else At(c, x, Storing(grant.value.access)).(cache := c.cache[c.exchanges[x].member := grant.value])
  }

  /** A login stores the pair the server granted it. */
  function Remember(c: Client, m: Member, tokens: Tokens): Client { c.(cache := c.cache[m := tokens]) }

  /** A logout removes the member's pair. */
  function Forget(c: Client, m: Member): Client { c.(cache := c.cache - {m}) }

  // ---------------------------------------------------------------- the whole system

  predicate InStage(w: World, x: nat, e: Event) {
    x in w.client.exchanges &&
    match e
    case TokensRead(_) => w.client.exchanges[x].stage.Reading?
    case ServerAnswers(_) => w.client.exchanges[x].stage.Sent?
    case RequestFails(_) => w.client.exchanges[x].stage.Sent?
    case ReplyLost(_) => w.client.exchanges[x].stage.Answered?
    case ReplyArrives(_) => w.client.exchanges[x].stage.Answered?
    case TokensStored(_) => w.client.exchanges[x].stage.Storing?
    case _ => false
  }

  predicate AboutExchange(e: Event) {
    e.TokensRead? || e.ServerAnswers? || e.RequestFails? || e.ReplyLost? || e.ReplyArrives? || e.TokensStored?
  }

  /** No login or logout of a member takes effect during an exchange of that member. */
  predicate Enabled(w: World, e: Event) {
    match e
    case Refresh(caller, _) => caller !in w.client.waiting && caller !in w.client.resumed
    case AnsweredLate(request) => request in w.astray
    case Login(m) => m !in w.client.refreshInFlight
    case Logout(m) => m !in w.client.refreshInFlight
    case _ => InStage(w, e.x, e)
  }

  /** The server rotates when the presented token is its newest, and refuses any other. */
  function Rotate(s: Server, m: Member, presented: Token): (Server, Option<Tokens>) {
    if m in s.valid && s.valid[m] == presented
    then (Server(s.valid[m := s.unused], s.unused + 2), Some(Tokens(s.unused + 1, s.unused)))
    else (s, None)
  }

  /** A login is granted a pair of its own. */
  function Grant(s: Server, m: Member): (Server, Tokens) {
    (Server(s.valid[m := s.unused], s.unused + 2), Tokens(s.unused + 1, s.unused))
  }

  function Next(w: World, e: Event): World
    requires Enabled(w, e)
  {
    var c := w.client;
    match e
    case Refresh(caller, m) =>
      w.(client := Join(c, caller, m, w.started),
         started := if m in c.refreshInFlight then w.started else w.started + 1)
    case TokensRead(x) => w.(client := Send(c, x))
    case ServerAnswers(x) =>
      var (server, grant) := Rotate(w.server, c.exchanges[x].member, c.exchanges[x].stage.refresh);
      w.(server := server, client := At(c, x, Answered(grant)))
    case RequestFails(x) =>
      w.(client := Settle(c, x, None),
         astray := w.astray + {Request(c.exchanges[x].member, c.exchanges[x].stage.refresh)})
    case ReplyLost(x) =>
      w.(client := Settle(c, x, None),
         lost := if c.exchanges[x].stage.grant.Some? then w.lost + {c.exchanges[x].member} else w.lost)
    case ReplyArrives(x) => w.(client := Receive(c, x))
    case TokensStored(x) => w.(client := Settle(c, x, Some(c.exchanges[x].stage.access)))
    case AnsweredLate(request) =>
      var (server, grant) := Rotate(w.server, request.member, request.refresh);
      w.(server := server, lost := if grant.Some? then w.lost + {request.member} else w.lost)
    case Login(m) =>
      var (server, tokens) := Grant(w.server, m);
      w.(server := server, client := Remember(c, m, tokens), lost := w.lost - {m})
    case Logout(m) => w.(client := Forget(c, m))
  }

  predicate ValidRun(w: World, es: seq<Event>)
    decreases |es|
  {
    es == [] || (Enabled(w, es[0]) && ValidRun(Next(w, es[0]), es[1..]))
  }

  function Run(w: World, es: seq<Event>): World
    requires ValidRun(w, es)
    decreases |es|
  {
    if es == [] then w else Run(Next(w, es[0]), es[1..])
  }

  /** Members log in before any refresh: each cached pair is the server's newest. */
  ghost predicate Initial(w: World) {
    && w.client.refreshInFlight == map[] && w.client.exchanges == map[]
    && w.client.waiting == map[] && w.client.resumed == map[] && w.astray == {} && w.lost == {}
    && (forall m | m in w.client.cache :: m in w.server.valid && w.server.valid[m] == w.client.cache[m].refresh)
    && (forall m | m in w.server.valid :: w.server.valid[m] < w.server.unused)
  }

  // ---------------------------------------------------------------- invariant

  /** The map of registrations and the exchanges alive are the same thing seen from two sides. */
  ghost predicate OnePerMember(c: Client) {
    && (forall m | m in c.refreshInFlight ::
          c.refreshInFlight[m] in c.exchanges && c.exchanges[c.refreshInFlight[m]].member == m)
    && (forall x | x in c.exchanges ::
          c.exchanges[x].member in c.refreshInFlight && c.refreshInFlight[c.exchanges[x].member] == x)
    && (forall k | k in c.waiting :: c.waiting[k] in c.exchanges)
    && (forall k | k in c.waiting :: k !in c.resumed)
  }

  /** Which refresh token the cached one must equal while nothing of this member has been lost. */
  ghost predicate Consistent(w: World, x: nat)
    requires x in w.client.exchanges
  {
    var m, stage := w.client.exchanges[x].member, w.client.exchanges[x].stage;
    match stage
    case Reading(tokens) => tokens == Lookup(w.client.cache, m)
    case Sent(refresh) => m in w.client.cache && refresh == w.client.cache[m].refresh
    case Answered(grant) =>
      m in w.client.cache &&
      (grant.Some? <==> m !in w.lost) &&
      (grant.Some? ==> m in w.server.valid && w.server.valid[m] == grant.value.refresh > w.client.cache[m].refresh)
    case Storing(access) =>
      m in w.client.cache && m !in w.lost && access == w.client.cache[m].access
      && forall q | q in w.astray && q.member == m :: q.refresh < w.client.cache[m].refresh
  }

  /** Requests gone astray carry tokens no newer than the stored one. */
  ghost predicate AstrayIsOld(w: World, m: Member) {
    forall q | q in w.astray && q.member == m ::
      q.refresh < w.server.unused && (m in w.client.cache ==> q.refresh <= w.client.cache[m].refresh)
  }

  /** A rotated pair for this member is on its way to the client. */
  predicate Arriving(w: World, m: Member) {
    m in w.client.refreshInFlight && w.client.refreshInFlight[m] in w.client.exchanges &&
    var stage := w.client.exchanges[w.client.refreshInFlight[m]].stage;
    stage.Answered? && stage.grant.Some?
  }

  /** Outside that moment, the stored token is the server's newest exactly when no reply was lost. */
  ghost predicate StoredIsNewest(w: World, m: Member) {
    m in w.client.cache ==>
      && m in w.server.valid && w.client.cache[m].refresh < w.server.unused && w.server.valid[m] < w.server.unused
      && (!Arriving(w, m) ==> (w.client.cache[m].refresh == w.server.valid[m] <==> m !in w.lost))
  }

  ghost predicate MemberOk(w: World, m: Member)
    requires OnePerMember(w.client)
  {
    && StoredIsNewest(w, m) && AstrayIsOld(w, m)
    && (m in w.client.refreshInFlight ==>
          w.client.refreshInFlight[m] < w.started && Consistent(w, w.client.refreshInFlight[m]))
  }

  ghost predicate Inv(w: World) {
    OnePerMember(w.client) && forall m :: MemberOk(w, m)
  }

  lemma InitialInv(w: World)
    requires Initial(w)
    ensures Inv(w)
  {}

  lemma SettleKeepsOne(c: Client, x: nat, outcome: Outcome)
    requires OnePerMember(c) && x in c.exchanges
    ensures OnePerMember(Settle(c, x, outcome))
  {}

  lemma JoinKeepsOne(c: Client, caller: nat, m: Member, next: nat)
    requires OnePerMember(c) && next !in c.exchanges && caller !in c.waiting && caller !in c.resumed
    ensures OnePerMember(Join(c, caller, m, next))
  {}

  function Subject(w: World, e: Event): Member
    requires Enabled(w, e)
  {
    match e
    case Refresh(_, m) => m
    case AnsweredLate(request) => request.member
    case Login(m) => m
    case Logout(m) => m
    case _ => w.client.exchanges[e.x].member
  }

  lemma {:induction false} StepKeepsOne(w: World, e: Event)
    requires Inv(w) && Enabled(w, e)
    ensures OnePerMember(Next(w, e).client)
  {
    var c := w.client;
    match e {
      case Refresh(caller, m) =>
        forall x | x in c.exchanges ensures x < w.started { assert MemberOk(w, c.exchanges[x].member); }
        JoinKeepsOne(c, caller, m, w.started);
      case TokensRead(x) =>
        if c.exchanges[x].stage.tokens.None? { SettleKeepsOne(c, x, None); }
      case ServerAnswers(x) =>
      case RequestFails(x) => SettleKeepsOne(c, x, None);
      case ReplyLost(x) => SettleKeepsOne(c, x, None);
      case ReplyArrives(x) =>
        if c.exchanges[x].stage.grant.None? { SettleKeepsOne(c, x, None); }
      case TokensStored(x) => SettleKeepsOne(c, x, Some(c.exchanges[x].stage.access));
      case AnsweredLate(_) =>
      case Login(_) =>
      case Logout(_) =>
    }
  }

  /** A step touches one member; the others see the same cache, exchange, server entry and losses. */
  lemma {:induction false} OthersUntouched(w: World, e: Event, n: Member)
    requires Inv(w) && Enabled(w, e) && n != Subject(w, e)
    ensures var w' := Next(w, e);
            && Lookup(w'.client.cache, n) == Lookup(w.client.cache, n)
            && Lookup(w'.client.refreshInFlight, n) == Lookup(w.client.refreshInFlight, n)
            && Lookup(w'.server.valid, n) == Lookup(w.server.valid, n)
            && (n in w.client.refreshInFlight ==>
                  var x := w.client.refreshInFlight[n];
                  x in w'.client.exchanges && w'.client.exchanges[x] == w.client.exchanges[x])
            && (n in w'.lost <==> n in w.lost)
            && (forall q: Request | q.member == n :: q in w'.astray <==> q in w.astray)
            && w.server.unused <= w'.server.unused && w.started <= w'.started
  {
    assert MemberOk(w, n);
    assert MemberOk(w, Subject(w, e));
  }

  lemma {:induction false} SubjectOk(w: World, e: Event)
    requires Inv(w) && Enabled(w, e)
    requires OnePerMember(Next(w, e).client)
    ensures MemberOk(Next(w, e), Subject(w, e))
  {
    var m := Subject(w, e);
    assert MemberOk(w, m);
    if AboutExchange(e) {
      assert w.client.refreshInFlight[m] == e.x && Consistent(w, e.x);
    }
  }

  lemma {:induction false} StepKeepsInv(w: World, e: Event)
    requires Inv(w) && Enabled(w, e)
    ensures Inv(Next(w, e))
  {
    StepKeepsOne(w, e);
    forall n ensures MemberOk(Next(w, e), n) {
      assert MemberOk(w, n);
      if n == Subject(w, e) { SubjectOk(w, e); } else { OthersUntouched(w, e, n); }
    }
  }

  lemma {:induction false} RunKeepsInv(w: World, es: seq<Event>)
    requires Inv(w) && ValidRun(w, es)
    ensures Inv(Run(w, es))
    decreases |es|
  {
    if es != [] {
      StepKeepsInv(w, es[0]);
      RunKeepsInv(Next(w, es[0]), es[1..]);
    }
  }

  // ---------------------------------------------------------------- the protocol's promises

  /**
   In every run: no member has two exchanges alive, and an exchange presents the token the server currently
   accepts, and is answered with a new pair, exactly when since the member's last login no rotation missed
   the client.
   */
  lemma {:induction false} EveryExchangePresentsTheNewest(w: World, es: seq<Event>, x: nat)
    requires Initial(w) && ValidRun(w, es)
    requires x in Run(w, es).client.exchanges
    ensures var v := Run(w, es);
            var e := v.client.exchanges[x];
            && (forall y | y in v.client.exchanges && v.client.exchanges[y].member == e.member :: y == x)
            && (e.stage.Sent? ==>
                  (Lookup(v.server.valid, e.member) == Some(e.stage.refresh) <==> e.member !in v.lost))
            && (e.stage.Sent? ==> (Rotate(v.server, e.member, e.stage.refresh).1.Some? <==> e.member !in v.lost))
            && (e.stage.Answered? ==> (e.stage.grant.Some? <==> e.member !in v.lost))
  {
    InitialInv(w);
    RunKeepsInv(w, es);
    var v := Run(w, es);
    assert MemberOk(v, v.client.exchanges[x].member);
  }

  /**
   In every run, when an exchange stores its pair and settles, exactly the callers awaiting it resume,
   all with the access token now in the store.
   */
  lemma {:induction false} CoalescedCallersShareTheToken(w: World, es: seq<Event>, x: nat, caller: nat)
    requires Initial(w) && ValidRun(w, es) && Enabled(Run(w, es), TokensStored(x))
    ensures var v := Run(w, es);
            var m := v.client.exchanges[x].member;
            var after := Next(v, TokensStored(x));
            && m in v.client.cache && m !in after.client.refreshInFlight
            && (caller in v.client.waiting && v.client.waiting[caller] == x ==>
                  Lookup(after.client.resumed, caller) == Some(Some(v.client.cache[m].access)))
            && (caller !in v.client.waiting || v.client.waiting[caller] != x ==>
                  Lookup(after.client.resumed, caller) == Lookup(v.client.resumed, caller))
  {
    InitialInv(w);
    RunKeepsInv(w, es);
    var v := Run(w, es);
    assert MemberOk(v, v.client.exchanges[x].member);
  }

  /** The two ways a rotation can miss the client: its reply is lost, or nobody waits for it any more. */
  predicate Misses(e: Event) { e.ReplyLost? || e.AnsweredLate? }

  lemma {:induction false} LossNeedsAMiss(w: World, es: seq<Event>, m: Member)
    requires ValidRun(w, es) && m !in w.lost && forall e | e in es :: !Misses(e)
    ensures m !in Run(w, es).lost
    decreases |es|
  {
    if es != [] {
      assert es[0] in es;
      LossNeedsAMiss(Next(w, es[0]), es[1..], m);
    }
  }

  /** While no rotation misses the client, every exchange presents the newest token and is granted a new pair. */
  lemma {:induction false} NewestWhileNothingMisses(w: World, es: seq<Event>, x: nat)
    requires Initial(w) && ValidRun(w, es) && forall e | e in es :: !Misses(e)
    requires x in Run(w, es).client.exchanges
    ensures var v := Run(w, es);
            var e := v.client.exchanges[x];
            && (e.stage.Sent? ==> Lookup(v.server.valid, e.member) == Some(e.stage.refresh))
            && (e.stage.Answered? ==> e.stage.grant.Some?)
  {
    EveryExchangePresentsTheNewest(w, es, x);
    LossNeedsAMiss(w, es, Run(w, es).client.exchanges[x].member);
  }

  lemma {:induction false} LossLastsUntilLogin(w: World, es: seq<Event>, m: Member)
    requires ValidRun(w, es) && m in w.lost && Login(m) !in es
    ensures m in Run(w, es).lost
    decreases |es|
  {
    if es != [] {
      assert es[0] in es;
      LossLastsUntilLogin(Next(w, es[0]), es[1..], m);
    }
  }

  lemma {:induction false} RunAppend(w: World, es: seq<Event>, e: Event)
    requires ValidRun(w, es) && Enabled(Run(w, es), e)
    ensures ValidRun(w, es + [e]) && Run(w, es + [e]) == Next(Run(w, es), e)
    decreases |es|
  {
    if es == [] {
      assert ([] + [e])[1..] == [];
    } else {
      assert (es + [e])[1..] == es[1..] + [e];
      RunAppend(Next(w, es[0]), es[1..], e);
    }
  }

  lemma {:induction false} ReplyLostMarks(w: World, es: seq<Event>, x: nat)
    requires Initial(w) && ValidRun(w, es) && Enabled(Run(w, es), ReplyLost(x))
    requires Run(w, es).client.exchanges[x].stage.grant.Some?
    ensures ValidRun(w, es + [ReplyLost(x)])
    ensures Run(w, es).client.exchanges[x].member in Run(w, es + [ReplyLost(x)]).lost
  {
    RunAppend(w, es, ReplyLost(x));
  }

  /** One missed rotation strands the member: until its next login the server refuses every exchange. */
  lemma {:induction false} LostReplyStrandsUntilLogin(w: World, es: seq<Event>, more: seq<Event>, m: Member, x: nat)
    requires Initial(w) && ValidRun(w, es) && m in Run(w, es).lost
    requires ValidRun(Run(w, es), more) && Login(m) !in more
    ensures var v := Run(Run(w, es), more);
            x in v.client.exchanges && v.client.exchanges[x].member == m ==>
              && (v.client.exchanges[x].stage.Sent? ==> Rotate(v.server, m, v.client.exchanges[x].stage.refresh).1 == None)
              && (v.client.exchanges[x].stage.Answered? ==> v.client.exchanges[x].stage.grant == None)
  {
    InitialInv(w);
    RunKeepsInv(w, es);
    RunKeepsInv(Run(w, es), more);
    LossLastsUntilLogin(Run(w, es), more, m);
    assert MemberOk(Run(Run(w, es), more), m);
  }

  /** A login ends the stranding: from then on exchanges are granted again, until a rotation next misses the client. */
  lemma {:induction false} LoginRestoresTheMember(w: World, es: seq<Event>, m: Member, more: seq<Event>, x: nat)
    requires Initial(w) && ValidRun(w, es) && Enabled(Run(w, es), Login(m))
    requires ValidRun(Next(Run(w, es), Login(m)), more) && forall e | e in more :: !Misses(e)
    ensures var v := Run(Next(Run(w, es), Login(m)), more);
            x in v.client.exchanges && v.client.exchanges[x].member == m ==>
              && (v.client.exchanges[x].stage.Sent? ==> Rotate(v.server, m, v.client.exchanges[x].stage.refresh).1.Some?)
              && (v.client.exchanges[x].stage.Answered? ==> v.client.exchanges[x].stage.grant.Some?)
  {
    InitialInv(w);
    RunKeepsInv(w, es);
    var restored := Next(Run(w, es), Login(m));
    StepKeepsInv(Run(w, es), Login(m));
    RunKeepsInv(restored, more);
    LossNeedsAMiss(restored, more, m);
    assert MemberOk(Run(restored, more), m);
  }

  /** Such a loss can happen to any member with cached tokens, on its very first refresh. */
  lemma {:induction false} LossIsReachable(w: World, m: Member)
    requires Initial(w) && m in w.client.cache
    ensures var n := w.started;
            var es := [Refresh(0, m)] + [TokensRead(n)] + [ServerAnswers(n)] + [ReplyLost(n)];
            ValidRun(w, es) && m in Run(w, es).lost
  {
    var n := w.started;
    var e1 := [Refresh(0, m)];
    assert e1[1..] == [] && Run(w, e1) == Next(w, Refresh(0, m));
    RunAppend(w, e1, TokensRead(n));
    RunAppend(w, e1 + [TokensRead(n)], ServerAnswers(n));
    ReplyLostMarks(w, e1 + [TokensRead(n)] + [ServerAnswers(n)], n);
  }

  /** So can one answered too late: the client gave the request up, and the server rotates when it arrives. */
  lemma {:induction false} LateAnswerIsReachable(w: World, m: Member)
    requires Initial(w) && m in w.client.cache
    ensures var n := w.started;
            var es := [Refresh(0, m)] + [TokensRead(n)] + [RequestFails(n)] + [AnsweredLate(Request(m, w.client.cache[m].refresh))];
            ValidRun(w, es) && m in Run(w, es).lost
  {
    var n := w.started;
    var e1 := [Refresh(0, m)];
    assert e1[1..] == [] && Run(w, e1) == Next(w, Refresh(0, m));
    RunAppend(w, e1, TokensRead(n));
    RunAppend(w, e1 + [TokensRead(n)], RequestFails(n));
    RunAppend(w, e1 + [TokensRead(n)] + [RequestFails(n)], AnsweredLate(Request(m, w.client.cache[m].refresh)));
  }

  // ---------------------------------------------------------------- the module

  /** The module state and one method per synchronous stretch between awaits. */
  class TokenRefresher {
    var cache: map<Member, Tokens>
    var refreshInFlight: map<Member, nat>
    var exchanges: map<nat, Exchange>
    var started: nat
    var waiting: map<nat, nat>
    var resumed: map<nat, Outcome>

    constructor (cache: map<Member, Tokens>)
      ensures View() == Client(cache, map[], map[], map[], map[]) && started == 0
    {
      this.cache := cache;
      refreshInFlight, exchanges, started, waiting, resumed := map[], map[], 0, map[], map[];
    }

    ghost function View(): Client
      reads this
    {
      Client(cache, refreshInFlight, exchanges, waiting, resumed)
    }

    method RefreshAccessToken(caller: nat, memberId: Member)
      modifies this
      ensures View() == Join(old(View()), caller, memberId, old(started))
      ensures started == old(started) + (if memberId in old(refreshInFlight) then 0 else 1)
    {
      if memberId in refreshInFlight {
        waiting := waiting[caller := refreshInFlight[memberId]];
        return;
      }
      var attempt := started;
      started := started + 1;
      exchanges := exchanges[attempt := Exchange(memberId, Reading(Lookup(cache, memberId)))];
      refreshInFlight := refreshInFlight[memberId := attempt];
      waiting := waiting[caller := attempt];
    }

    method SendRequest(x: nat)
      requires x in exchanges && exchanges[x].stage.Reading?
      modifies this
      ensures View() == Send(old(View()), x) && started == old(started)
    {
      var tokens := exchanges[x].stage.tokens;
      if tokens.None? {
        Finally(x, None);
      } else {
        exchanges := exchanges[x := exchanges[x].(stage := Sent(tokens.value.refresh))];
      }
    }

    /** The reply is read and a granted pair is put in the cache before its row is written. */
    method ReceiveReply(x: nat)
      requires x in exchanges && exchanges[x].stage.Answered?
      modifies this
      ensures View() == Receive(old(View()), x) && started == old(started)
    {
      var Exchange(memberId, stage) := exchanges[x];
      if stage.grant.None? {
        Finally(x, None);
        return;
      }
      cache := cache[memberId := stage.grant.value];
      exchanges := exchanges[x := Exchange(memberId, Storing(stage.grant.value.access))];
    }

    method RowWritten(x: nat)
      requires x in exchanges && exchanges[x].stage.Storing?
      modifies this
      ensures View() == Settle(old(View()), x, Some(old(exchanges)[x].stage.access)) && started == old(started)
    {
      Finally(x, Some(exchanges[x].stage.access));
    }

    /** The pair of a new login enters the cache. */
    method LoggedIn(memberId: Member, tokens: Tokens)
      modifies this`cache
      ensures View() == Remember(old(View()), memberId, tokens)
    {
      cache := cache[memberId := tokens];
    }

    method LoggedOut(memberId: Member)
      modifies this`cache
      ensures View() == Forget(old(View()), memberId)
    {
      cache := cache - {memberId};
    }

    /** The finally handler drops the registration; then every caller awaiting the promise resumes. */
    method Finally(x: nat, outcome: Outcome)
      requires x in exchanges
      modifies this
      ensures View() == Settle(old(View()), x, outcome) && started == old(started)
    {
      refreshInFlight := refreshInFlight - {exchanges[x].member};
      exchanges := exchanges - {x};
      resumed := resumed + map k | k in waiting && waiting[k] == x :: outcome;
      waiting := map k | k in waiting && waiting[k] != x :: waiting[k];
    }
  }
}
