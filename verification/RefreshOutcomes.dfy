/**
 What the callers of a coalesced refresh are told, read off the events of a run: an observer notes which
 exchange each caller awaits, which pair the server granted it, and how it ended.
 */
module RefreshOutcomes {
  import opened Common
  import opened RefreshRotation

  /** How an exchange ends, as the network and the server have it. */
  datatype End = NoTokens | FailedInTransport | LostItsReply | RefusedByServer | StoredItsPair

  datatype Book = Book(awaits: map<nat, nat>, member: map<nat, Member>, granted: map<nat, Tokens>, ended: map<nat, End>)

  const BLANK := Book(map[], map[], map[], map[])

  /** The observer sees the events, the cache a new exchange starts from, and what the server hands out. */
  function Note(b: Book, w: World, e: Event): Book
    requires Enabled(w, e)
  {
    match e
    case Refresh(caller, m) =>
      var x := if m in w.client.refreshInFlight then w.client.refreshInFlight[m] else w.started;
      b.(awaits := b.awaits[caller := x], member := b.member[x := m])
    case TokensRead(x) =>
      if w.client.exchanges[x].stage.tokens.None? then b.(ended := b.ended[x := NoTokens]) else b
    case ServerAnswers(x) =>
      if w.client.exchanges[x].member in w.server.valid
         && w.server.valid[w.client.exchanges[x].member] == w.client.exchanges[x].stage.refresh
      then b.(granted := b.granted[x := Tokens(w.server.unused + 1, w.server.unused)])
      else b
    case RequestFails(x) => b.(ended := b.ended[x := FailedInTransport])
    case ReplyLost(x) => b.(ended := b.ended[x := LostItsReply])
    case ReplyArrives(x) => if x in b.granted then b else b.(ended := b.ended[x := RefusedByServer])
    case TokensStored(x) => b.(ended := b.ended[x := StoredItsPair])
    case _ => b
  }

  function Observe(b: Book, w: World, es: seq<Event>): Book
    requires ValidRun(w, es)
    decreases |es|
  {
    if es == [] then b else Observe(Note(b, w, es[0]), Next(w, es[0]), es[1..])
  }

  /** What a caller is owed: the access token its exchange was granted, if that exchange got to store it. */
  function Owed(b: Book, x: nat): Outcome {
    if x in b.ended && b.ended[x] == StoredItsPair && x in b.granted then Some(b.granted[x].access) else None
  }

  // ---------------------------------------------------------------- invariant

  /** An exchange alive, seen by the observer. */
  ghost predicate Alive(w: World, b: Book, x: nat)
    requires x in w.client.exchanges
  {
    var e := w.client.exchanges[x];
    && x < w.started && x !in b.ended && Lookup(b.member, x) == Some(e.member)
    && match e.stage
       case Reading(_) => x !in b.granted
       case Sent(_) => x !in b.granted
       case Answered(grant) => Lookup(b.granted, x) == grant
       case Storing(access) =>
         x in b.granted && access == b.granted[x].access && Lookup(w.client.cache, e.member) == Some(b.granted[x])
  }

  ghost predicate AliveOk(w: World, b: Book) {
    forall x | x in w.client.exchanges :: Alive(w, b, x)
  }

  /** Every caller is either waiting for an exchange alive or has resumed with what it is owed. */
  ghost predicate CallersOk(c: Client, b: Book) {
    && (forall k | k in b.awaits :: k in c.waiting || k in c.resumed)
    && (forall k | k in c.waiting :: Lookup(b.awaits, k) == Some(c.waiting[k]))
    && (forall k | k in c.resumed :: k in b.awaits && b.awaits[k] in b.ended && c.resumed[k] == Owed(b, b.awaits[k]))
  }

  ghost predicate EndsOk(w: World, b: Book) {
    && (forall x | x in b.ended :: x < w.started && x !in w.client.exchanges)
    && (forall x | x in b.granted :: x < w.started)
    && (forall x | x in b.ended && b.ended[x] == StoredItsPair :: x in b.granted)
  }

  ghost predicate Told(w: World, b: Book) { AliveOk(w, b) && CallersOk(w.client, b) && EndsOk(w, b) }

  lemma {:induction false} JoinTold(c: Client, b: Book, caller: nat, m: Member, next: nat, b': Book)
    requires OnePerMember(c) && CallersOk(c, b) && caller !in c.waiting && caller !in c.resumed
    requires b'.awaits == b.awaits[caller := if m in c.refreshInFlight then c.refreshInFlight[m] else next]
    requires b'.ended == b.ended && b'.granted == b.granted
    ensures CallersOk(Join(c, caller, m, next), b')
  {
    forall k | k in c.resumed ensures k != caller && Owed(b', b'.awaits[k]) == Owed(b, b.awaits[k]) {
      assert b'.awaits[k] == b.awaits[k];
    }
    forall k | k in c.waiting && k != caller ensures Lookup(b'.awaits, k) == Some(c.waiting[k]) {
      assert Lookup(b.awaits, k) == Some(c.waiting[k]);
    }
  }

  lemma {:induction false} RefreshTold(w: World, b: Book, e: Event)
    requires OnePerMember(w.client) && Told(w, b) && Enabled(w, e) && e.Refresh?
    ensures Told(Next(w, e), Note(b, w, e))
  {
    var w', b' := Next(w, e), Note(b, w, e);
    assert w'.client == Join(w.client, e.caller, e.member, w.started);
    JoinTold(w.client, b, e.caller, e.member, w.started, b');
    forall x | x in w'.client.exchanges ensures Alive(w', b', x) {
      if x in w.client.exchanges { assert Alive(w, b, x); }
    }
  }

  /** An exchange that ends resumes exactly its own callers. */
  lemma {:induction false} SettleCallers(c: Client, b: Book, b': Book, x: nat, end: End)
    requires CallersOk(c, b) && x in c.exchanges && x !in b.ended && b' == b.(ended := b.ended[x := end])
    ensures CallersOk(Settle(c, x, Owed(b', x)), b')
  {
    forall k | k in c.resumed ensures Owed(b', b.awaits[k]) == Owed(b, b.awaits[k]) { assert b.awaits[k] != x; }
  }

  lemma {:induction false} SettleTold(w: World, w': World, b: Book, b': Book, x: nat, end: End)
    requires Told(w, b) && x in w.client.exchanges
    requires b' == b.(ended := b.ended[x := end]) && (end == StoredItsPair ==> x in b.granted)
    requires w'.client == Settle(w.client, x, Owed(b', x)) && w'.started == w.started
    ensures Told(w', b')
  {
    assert Alive(w, b, x);
    SettleCallers(w.client, b, b', x, end);
    forall y | y in w'.client.exchanges ensures Alive(w', b', y) { assert Alive(w, b, y); }
  }

  /** A grant to an exchange alive changes nothing for callers that have resumed. */
  lemma {:induction false} MoveCallers(c: Client, b: Book, b': Book, x: nat)
    requires CallersOk(c, b) && x !in b.ended && b' == b.(granted := b'.granted)
    requires forall y | y != x :: Lookup(b'.granted, y) == Lookup(b.granted, y)
    ensures CallersOk(c, b')
  {
    forall k | k in c.resumed ensures Owed(b', b.awaits[k]) == Owed(b, b.awaits[k]) {
      var y := b.awaits[k];
      assert y != x && Lookup(b'.granted, y) == Lookup(b.granted, y);
    }
  }

  lemma {:induction false} OtherStaysAlive(w: World, w': World, b: Book, b': Book, x: nat, y: nat)
    requires OnePerMember(w.client) && x in w.client.exchanges && y in w.client.exchanges && x != y && Alive(w, b, y)
    requires y in w'.client.exchanges && w'.client.exchanges[y] == w.client.exchanges[y] && w'.started == w.started
    requires forall m | m != w.client.exchanges[x].member :: Lookup(w'.client.cache, m) == Lookup(w.client.cache, m)
    requires b' == b.(granted := b'.granted) && Lookup(b'.granted, y) == Lookup(b.granted, y)
    ensures Alive(w', b', y)
  {
    assert w.client.refreshInFlight[w.client.exchanges[y].member] == y;
    assert w.client.exchanges[y].member != w.client.exchanges[x].member;
  }

  /** One exchange moves on; the callers hear nothing. */
  lemma {:induction false} MoveTold(w: World, w': World, b: Book, b': Book, x: nat, stage: Stage)
    requires OnePerMember(w.client) && Told(w, b) && x in w.client.exchanges
    requires w'.client == At(w.client, x, stage).(cache := w'.client.cache) && w'.started == w.started
    requires forall m | m != w.client.exchanges[x].member :: Lookup(w'.client.cache, m) == Lookup(w.client.cache, m)
    requires b' == b.(granted := b'.granted) && Alive(w', b', x)
    requires forall y | y != x :: Lookup(b'.granted, y) == Lookup(b.granted, y)
    ensures Told(w', b')
  {
    assert Alive(w, b, x);
    MoveCallers(w.client, b, b', x);
    forall y | y in w'.client.exchanges ensures Alive(w', b', y) {
      if y != x { OtherStaysAlive(w, w', b, b', x, y); }
    }
    assert EndsOk(w', b') by {
      forall y: nat | y in b'.granted ensures y < w.started {
        if y != x { assert Lookup(b'.granted, y) == Lookup(b.granted, y); }
      }
      forall y: nat | y in b.ended && b.ended[y] == StoredItsPair ensures y in b'.granted {
        assert y != x && Lookup(b'.granted, y) == Lookup(b.granted, y);
      }
    }
  }

  /** Late answers, logins and logouts touch no exchange and no caller. */
  lemma {:induction false} OutsideTold(w: World, b: Book, e: Event)
    requires OnePerMember(w.client) && Told(w, b) && Enabled(w, e) && (e.AnsweredLate? || e.Login? || e.Logout?)
    ensures Told(Next(w, e), Note(b, w, e))
  {
    var w' := Next(w, e);
    forall x | x in w'.client.exchanges ensures Alive(w', b, x) {
      assert Alive(w, b, x) && w.client.exchanges[x].member in w.client.refreshInFlight;
    }
  }

  lemma {:induction false} AnsweredTold(w: World, w': World, b: Book, b': Book, x: nat, grant: Option<Tokens>)
    requires OnePerMember(w.client) && Told(w, b) && x in w.client.exchanges && w.client.exchanges[x].stage.Sent?
    requires w'.client == At(w.client, x, Answered(grant)) && w'.started == w.started
    requires b' == b.(granted := if grant.Some? then b.granted[x := grant.value] else b.granted)
    ensures Told(w', b')
  {
    assert Alive(w, b, x);
    MoveTold(w, w', b, b', x, Answered(grant));
  }

  lemma {:induction false} AnswerMoves(w: World, b: Book, e: Event) returns (grant: Option<Tokens>)
    requires Enabled(w, e) && e.ServerAnswers?
    ensures Next(w, e).client == At(w.client, e.x, Answered(grant)) && Next(w, e).started == w.started
    ensures Note(b, w, e) == b.(granted := if grant.Some? then b.granted[e.x := grant.value] else b.granted)
  {
    grant := Rotate(w.server, w.client.exchanges[e.x].member, w.client.exchanges[e.x].stage.refresh).1;
  }

  lemma {:induction false} AnswerTold(w: World, b: Book, e: Event)
    requires OnePerMember(w.client) && Told(w, b) && Enabled(w, e) && e.ServerAnswers?
    ensures Told(Next(w, e), Note(b, w, e))
  {
    var grant := AnswerMoves(w, b, e);
    AnsweredTold(w, Next(w, e), b, Note(b, w, e), e.x, grant);
  }

  lemma {:induction false} ReadTold(w: World, b: Book, e: Event)
    requires OnePerMember(w.client) && Told(w, b) && Enabled(w, e) && e.TokensRead?
    ensures Told(Next(w, e), Note(b, w, e))
  {
    var w', b' := Next(w, e), Note(b, w, e);
    assert Alive(w, b, e.x);
    if w.client.exchanges[e.x].stage.tokens.None? {
      SettleTold(w, w', b, b', e.x, NoTokens);
    } else {
      MoveTold(w, w', b, b', e.x, w'.client.exchanges[e.x].stage);
    }
  }

  lemma {:induction false} ReceiptTold(w: World, b: Book, e: Event)
    requires OnePerMember(w.client) && Told(w, b) && Enabled(w, e) && e.ReplyArrives?
    ensures Told(Next(w, e), Note(b, w, e))
  {
    var w', b' := Next(w, e), Note(b, w, e);
    assert Alive(w, b, e.x);
    if e.x in b.granted {
      MoveTold(w, w', b, b', e.x, w'.client.exchanges[e.x].stage);
    } else {
      SettleTold(w, w', b, b', e.x, RefusedByServer);
    }
  }

  lemma {:induction false} EndTold(w: World, b: Book, e: Event)
    requires OnePerMember(w.client) && Told(w, b) && Enabled(w, e) && (e.RequestFails? || e.ReplyLost? || e.TokensStored?)
    ensures Told(Next(w, e), Note(b, w, e))
  {
    var end := if e.RequestFails? then FailedInTransport else if e.ReplyLost? then LostItsReply else StoredItsPair;
    assert Alive(w, b, e.x);
    SettleTold(w, Next(w, e), b, Note(b, w, e), e.x, end);
  }

  lemma {:induction false} StepTold(w: World, b: Book, e: Event)
    requires OnePerMember(w.client) && Told(w, b) && Enabled(w, e)
    ensures Told(Next(w, e), Note(b, w, e))
  {
    if e.Refresh? {
      RefreshTold(w, b, e);
    } else if e.TokensRead? {
      ReadTold(w, b, e);
    } else if e.ServerAnswers? {
      AnswerTold(w, b, e);
    } else if e.ReplyArrives? {
      ReceiptTold(w, b, e);
    } else if e.RequestFails? || e.ReplyLost? || e.TokensStored? {
      EndTold(w, b, e);
    } else {
      OutsideTold(w, b, e);
    }
  }

  lemma {:induction false} RunTold(w: World, b: Book, es: seq<Event>)
    requires Inv(w) && Told(w, b) && ValidRun(w, es)
    ensures Told(Run(w, es), Observe(b, w, es))
    decreases |es|
  {
    if es != [] {
      StepKeepsInv(w, es[0]);
      StepTold(w, b, es[0]);
      RunTold(Next(w, es[0]), Note(b, w, es[0]), es[1..]);
    }
  }

  // ---------------------------------------------------------------- what every caller is told

  /**
   In every run, a caller has resumed exactly when the exchange it awaits has ended: with the access token
   that exchange was granted if it stored its pair, and with the error if it found no tokens, failed in
   transport, lost its reply or was refused.
   */
  lemma {:induction false} CallersLearnTheirExchange(w: World, es: seq<Event>, caller: nat)
    requires Initial(w) && ValidRun(w, es)
    ensures var c, b := Run(w, es).client, Observe(BLANK, w, es);
            && (caller in c.waiting || caller in c.resumed <==> caller in b.awaits)
            && (caller in b.awaits ==> (caller in c.resumed <==> b.awaits[caller] in b.ended))
            && (caller in c.resumed ==>
                  match b.ended[b.awaits[caller]]
                  case StoredItsPair =>
                    b.awaits[caller] in b.granted && c.resumed[caller] == Some(b.granted[b.awaits[caller]].access)
                  case _ => c.resumed[caller] == None)
  {
    InitialInv(w);
    RunTold(w, BLANK, es);
    RunKeepsInv(w, es);
  }

  /** A step tells the callers of the exchange it ends, and no one else, anything. */
  lemma {:induction false} NobodyElseIsTold(w: World, es: seq<Event>, e: Event, caller: nat)
    requires Initial(w) && ValidRun(w, es) && Enabled(Run(w, es), e)
    ensures var v := Run(w, es);
            !(AboutExchange(e) && caller in v.client.waiting && v.client.waiting[caller] == e.x) ==>
              Lookup(Next(v, e).client.resumed, caller) == Lookup(v.client.resumed, caller)
  {
    InitialInv(w);
    RunKeepsInv(w, es);
  }

  /** The pair a caller's token came from is the one stored when it resumes. */
  lemma {:induction false} GrantedPairIsStored(w: World, es: seq<Event>, x: nat)
    requires Initial(w) && ValidRun(w, es) && Enabled(Run(w, es), TokensStored(x))
    ensures var v, b := Next(Run(w, es), TokensStored(x)), Observe(BLANK, w, es);
            x in b.granted && x in b.member && Lookup(v.client.cache, b.member[x]) == Some(b.granted[x])
  {
    InitialInv(w);
    RunTold(w, BLANK, es);
    assert Alive(Run(w, es), Observe(BLANK, w, es), x);
  }
}
