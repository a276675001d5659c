/**
 Bitrix24 tokens: a process cache read through to an encrypted table, with the cache alone when no
 database is configured. Operations run one at a time; each database call may be told to fail.
 */
module TokenStore {
  import opened Common
  import opened Base64
  import opened SecretFraming

  datatype BitrixTokens = BitrixTokens(
    accessToken: Bytes, refreshToken: Bytes, clientEndpoint: string, domain: string, expiresAt: int)

  datatype Row = Row(portalDomain: string, clientEndpoint: string, accessToken: string, refreshToken: string, expiresAt: int)

  datatype Setup = Setup(persistent: bool, cipher: Cipher, hexKey: string)

  datatype State = State(cache: map<string, BitrixTokens>, table: map<string, Row>)

  /** `dbOk` is whether the operation's database call succeeds; ivs are the random ones drawn. */
  datatype Operation =
    | Store(member: string, tokens: BitrixTokens, iv1: Bytes, iv2: Bytes, dbOk: bool)
    | Get(member: string, dbOk: bool)
    | Remove(member: string, dbOk: bool)
    | Restart

  datatype Answer = Done | Found(tokens: Option<BitrixTokens>) | Existed(yes: bool)

  // ---------------------------------------------------------------- rows

  function SealRow(setup: Setup, t: BitrixTokens, iv1: Bytes, iv2: Bytes): Option<Row> {
    var access := EncryptSecret(setup.cipher, t.accessToken, setup.hexKey, iv1);
    var refresh := EncryptSecret(setup.cipher, t.refreshToken, setup.hexKey, iv2);
    if access.Err? || refresh.Err? then None
    else Some(Row(t.domain, t.clientEndpoint, access.value, refresh.value, t.expiresAt))
  }

  function OpenRow(setup: Setup, row: Row): Option<BitrixTokens> {
    var access := DecryptSecret(setup.cipher, row.accessToken, setup.hexKey);
    var refresh := DecryptSecret(setup.cipher, row.refreshToken, setup.hexKey);
    if access.Err? || refresh.Err? then None
    else Some(BitrixTokens(access.value, refresh.value, row.clientEndpoint, row.portalDomain, row.expiresAt))
  }

  lemma {:induction false} RowRoundTrip(setup: Setup, t: BitrixTokens, iv1: Bytes, iv2: Bytes)
    requires OpensWhatItSeals(setup.cipher)
    ensures SealRow(setup, t, iv1, iv2).Some? <==> ToKey(setup.hexKey).Ok?
    ensures SealRow(setup, t, iv1, iv2).Some? ==> OpenRow(setup, SealRow(setup, t, iv1, iv2).value) == Some(t)
  {
    SecretRoundTrip(setup.cipher, t.accessToken, setup.hexKey, iv1);
    SecretRoundTrip(setup.cipher, t.refreshToken, setup.hexKey, iv2);
  }

  // ---------------------------------------------------------------- operations

  function Stored(s: State, setup: Setup, member: string, t: BitrixTokens, iv1: Bytes, iv2: Bytes, dbOk: bool): State {
    var cached := s.(cache := s.cache[member := t]);
    var row := SealRow(setup, t, iv1, iv2);
    if setup.persistent && dbOk && row.Some? then cached.(table := s.table[member := row.value]) else cached
  }

  function Got(s: State, setup: Setup, member: string, dbOk: bool): (State, Option<BitrixTokens>) {
    if member in s.cache then (s, Some(s.cache[member]))
    else if !setup.persistent || !dbOk || member !in s.table then (s, None)
    else match OpenRow(setup, s.table[member])
      case None => (s, None)
      case Some(t) => (s.(cache := s.cache[member := t]), Some(t))
  }

  function Removed(s: State, setup: Setup, member: string, dbOk: bool): (State, bool) {
    var dropped := s.(cache := s.cache - {member});
    if setup.persistent && dbOk
    then (dropped.(table := s.table - {member}), member in s.cache || member in s.table)
    else (dropped, member in s.cache)
  }

  function Apply(s: State, setup: Setup, op: Operation): (State, Answer) {
    match op
    case Store(member, t, iv1, iv2, dbOk) => (Stored(s, setup, member, t, iv1, iv2, dbOk), Done)
    case Get(member, dbOk) => var (t, r) := Got(s, setup, member, dbOk); (t, Found(r))
    case Remove(member, dbOk) => var (t, r) := Removed(s, setup, member, dbOk); (t, Existed(r))
    case Restart => (s.(cache := map[]), Done)
  }

  function Answers(s: State, setup: Setup, ops: seq<Operation>): seq<Answer>
    decreases |ops|
  {
    if ops == [] then []
    else
      var (t, answer) := Apply(s, setup, ops[0]);
      [answer] + Answers(t, setup, ops[1..])
  }

  // ---------------------------------------------------------------- the reference: a plain map

  function ApplyPlain(m: map<string, BitrixTokens>, persistent: bool, op: Operation): (map<string, BitrixTokens>, Answer) {
    match op
    case Store(member, t, _, _, _) => (m[member := t], Done)
    case Get(member, _) => (m, Found(Lookup(m, member)))
    case Remove(member, _) => (m - {member}, Existed(member in m))
    case Restart => (if persistent then m else map[], Done)
  }

  function PlainAnswers(m: map<string, BitrixTokens>, persistent: bool, ops: seq<Operation>): seq<Answer>
    decreases |ops|
  {
    if ops == [] then []
    else
      var (n, answer) := ApplyPlain(m, persistent, ops[0]);
      [answer] + PlainAnswers(n, persistent, ops[1..])
  }

  predicate DbSucceeds(op: Operation) { op.Restart? || op.dbOk }

  ghost predicate Represents(s: State, setup: Setup, m: map<string, BitrixTokens>) {
    && (forall k | k in s.cache :: k in m && s.cache[k] == m[k])
    && (if setup.persistent
        then s.table.Keys == m.Keys && forall k | k in s.table :: OpenRow(setup, s.table[k]) == Some(m[k])
        else s.cache == m)
  }

  ghost predicate Usable(setup: Setup) {
    OpensWhatItSeals(setup.cipher) && (setup.persistent ==> ToKey(setup.hexKey).Ok?)
  }

  lemma {:induction false} StepAgrees(s: State, setup: Setup, m: map<string, BitrixTokens>, op: Operation)
    requires Usable(setup) && Represents(s, setup, m) && DbSucceeds(op)
    ensures Apply(s, setup, op).1 == ApplyPlain(m, setup.persistent, op).1
    ensures Represents(Apply(s, setup, op).0, setup, ApplyPlain(m, setup.persistent, op).0)
  {
    if op.Store? {
      RowRoundTrip(setup, op.tokens, op.iv1, op.iv2);
    }
  }

  /** For every sequential run with successful database calls, the store answers like one plain map. */
  lemma {:induction false} StoreIsAPlainMap(s: State, setup: Setup, m: map<string, BitrixTokens>, ops: seq<Operation>)
    requires Usable(setup) && Represents(s, setup, m)
    requires forall op | op in ops :: DbSucceeds(op)
    ensures Answers(s, setup, ops) == PlainAnswers(m, setup.persistent, ops)
    decreases |ops|
  {
    if ops != [] {
      assert ops[0] in ops;
      StepAgrees(s, setup, m, ops[0]);
      StoreIsAPlainMap(Apply(s, setup, ops[0]).0, setup, ApplyPlain(m, setup.persistent, ops[0]).0, ops[1..]);
    }
  }

  /** In particular from an empty store, as a first process finds it. */
  lemma {:induction false} FreshStoreIsAPlainMap(setup: Setup, ops: seq<Operation>)
    requires Usable(setup) && forall op | op in ops :: DbSucceeds(op)
    ensures Answers(State(map[], map[]), setup, ops) == PlainAnswers(map[], setup.persistent, ops)
  {
    StoreIsAPlainMap(State(map[], map[]), setup, map[], ops);
  }

  /**
   What a store survives: its tokens are served at once whatever the database said, and after a restart
   a read gives them back exactly when the write succeeded, and otherwise whatever was stored before.
   */
  lemma {:induction false} FailedWriteIsServedUntilRestart(
    s: State, setup: Setup, m: map<string, BitrixTokens>, member: string, t: BitrixTokens, iv1: Bytes, iv2: Bytes, dbOk: bool)
    requires Usable(setup) && Represents(s, setup, m)
    ensures var after := Stored(s, setup, member, t, iv1, iv2, dbOk);
            var restarted := Apply(after, setup, Restart).0;
            && Got(after, setup, member, false) == (after, Some(t))
            && (!dbOk ==> after.table == s.table)
            && Got(restarted, setup, member, true).1
               == if !setup.persistent then None else if dbOk then Some(t) else Lookup(m, member)
  {
    RowRoundTrip(setup, t, iv1, iv2);
  }

  /** Which column holds what: the two secrets each in a frame with an iv of its own, the rest as it is. */
  lemma {:induction false} RowColumns(setup: Setup, t: BitrixTokens, iv1: Bytes, iv2: Bytes)
    requires OpensWhatItSeals(setup.cipher)
    ensures SealRow(setup, t, iv1, iv2).Some? ==>
              var row := SealRow(setup, t, iv1, iv2).value;
              && DecryptSecret(setup.cipher, row.accessToken, setup.hexKey) == Ok(t.accessToken)
              && DecryptSecret(setup.cipher, row.refreshToken, setup.hexKey) == Ok(t.refreshToken)
              && row.portalDomain == t.domain && row.clientEndpoint == t.clientEndpoint && row.expiresAt == t.expiresAt
              && (exists tag, text :: row.accessToken == Frame(iv1, tag, text))
              && (exists tag, text :: row.refreshToken == Frame(iv2, tag, text))
  {
    SecretRoundTrip(setup.cipher, t.accessToken, setup.hexKey, iv1);
    SecretRoundTrip(setup.cipher, t.refreshToken, setup.hexKey, iv2);
  }

  /** What is answered when the database fails, or holds a row that does not open: what the cache knows, and no more. */
  lemma {:induction false} WithoutTheDatabase(s: State, setup: Setup, member: string, dbOk: bool)
    ensures Got(s, setup, member, false) == (s, Lookup(s.cache, member))
    ensures Removed(s, setup, member, false) == (s.(cache := s.cache - {member}), member in s.cache)
    ensures !setup.persistent ==> Got(s, setup, member, dbOk) == (s, Lookup(s.cache, member))
    ensures member in s.table && OpenRow(setup, s.table[member]).None? ==> Got(s, setup, member, dbOk) == (s, Lookup(s.cache, member))
    ensures setup.persistent ==> (Removed(s, setup, member, true).1 <==> member in s.cache || member in s.table)
  {}

  /** A removal holds exactly when nothing was stored, no table stands behind the cache, or its delete succeeded. */
  lemma {:induction false} FailedDeleteBringsTokensBack(s: State, setup: Setup, m: map<string, BitrixTokens>, member: string, dbOk: bool)
    requires Usable(setup) && Represents(s, setup, m)
    ensures var gone := Removed(s, setup, member, dbOk).0;
            && (Got(gone, setup, member, true).1.Some? <==> setup.persistent && !dbOk && member in m)
            && (Got(gone, setup, member, true).1.Some? ==> Got(gone, setup, member, true).1 == Some(m[member]))
  {}

  // ---------------------------------------------------------------- the module

  class Tokens {
    const setup: Setup
    var cache: map<string, BitrixTokens>
    /** The table outlives the process; a new process starts from an empty cache over it. */
    var table: map<string, Row>

    constructor (setup: Setup, table: map<string, Row>)
      ensures this.setup == setup && View() == State(map[], table)
    {
      this.setup, this.table, cache := setup, table, map[];
    }

    ghost function View(): State
      reads this
    {
      State(cache, table)
    }

    method StoreBitrixTokens(memberId: string, tokens: BitrixTokens, iv1: Bytes, iv2: Bytes, dbOk: bool)
      modifies this
      ensures View() == Stored(old(View()), setup, memberId, tokens, iv1, iv2, dbOk)
    {
      cache := cache[memberId := tokens];
      if !setup.persistent {
        return;
      }
      var access := EncryptSecret(setup.cipher, tokens.accessToken, setup.hexKey, iv1);
      var refresh := EncryptSecret(setup.cipher, tokens.refreshToken, setup.hexKey, iv2);
      if access.Ok? && refresh.Ok? && dbOk {
        table := table[memberId := Row(tokens.domain, tokens.clientEndpoint, access.value, refresh.value, tokens.expiresAt)];
      }
    }

    method GetBitrixTokens(memberId: string, dbOk: bool) returns (r: Option<BitrixTokens>)
      modifies this`cache
      ensures (View(), r) == Got(old(View()), setup, memberId, dbOk)
    {
      if memberId in cache {
        return Some(cache[memberId]);
      }
      if !setup.persistent {
        return None;
      }
      if !dbOk || memberId !in table {
        return None;
      }
      r := OpenRow(setup, table[memberId]);
      if r.Some? {
        cache := cache[memberId := r.value];
      }
    }

    method RemoveBitrixTokens(memberId: string, dbOk: bool) returns (existed: bool)
      modifies this
      ensures (View(), existed) == Removed(old(View()), setup, memberId, dbOk)
    {
      existed := memberId in cache;
      cache := cache - {memberId};
      if setup.persistent && dbOk {
        var affected := memberId in table;
        table := table - {memberId};
        existed := existed || affected;
      }
    }
  }
}
