/** Revocation stores, with the clock: how long a revoked token stays refused. Instants are in milliseconds. */
module Revocation {
  import opened Prelude
  import opened Tokens
  import opened Ledgers
  import opened RedisLedger

  datatype Record = Record(jti: string, revokedAt: int, reason: Option<string>, revokedBy: Option<string>)

  /** One call of revoke, at an instant. */
  datatype Revoking = Revoking(jti: string, at: int, reason: Option<string>, revokedBy: Option<string>)

  function RecordOf(r: Revoking): Record {
    Record(r.jti, r.at, r.reason, r.revokedBy)
  }

  function RevokeKey(prefix: string, jti: string): string {
    prefix + ":" + jti
  }

  lemma RevokeKeysDiffer(prefix: string, a: string, b: string)
    ensures RevokeKey(prefix, a) == RevokeKey(prefix, b) ==> a == b
  {
    assert RevokeKey(prefix, a)[|prefix| + 1..] == a;
    assert RevokeKey(prefix, b)[|prefix| + 1..] == b;
  }

  type Keys = map<string, Entry<Record>>

  function AfterRevoke(keys: Keys, prefix: string, ttlSec: int, r: Revoking): Keys {
    keys[RevokeKey(prefix, r.jti) := Entry(RecordOf(r), Some(r.at + 1000 * ttlSec))]
  }

  // ----------------------------------------------------------------- whole runs

  function MemoryAfter(rs: seq<Revoking>): map<string, Record> {
    if rs == [] then map[] else MemoryAfter(rs[..|rs| - 1])[rs[|rs| - 1].jti := RecordOf(rs[|rs| - 1])]
  }

  function RedisAfter(prefix: string, ttlSec: int, rs: seq<Revoking>): Keys {
    if rs == [] then map[] else AfterRevoke(RedisAfter(prefix, ttlSec, rs[..|rs| - 1]), prefix, ttlSec, rs[|rs| - 1])
  }

  /** The last call that revoked a token, if any did. */
  function LastRevoke(rs: seq<Revoking>, jti: string): (i: int)
    ensures -1 <= i < |rs| && (i >= 0 ==> rs[i].jti == jti)
    ensures forall j :: i < j < |rs| ==> rs[j].jti != jti
  {
    if rs == [] then -1
    else if rs[|rs| - 1].jti == jti then |rs| - 1
    else LastRevoke(rs[..|rs| - 1], jti)
  }

  predicate InClockOrder(rs: seq<Revoking>) {
    forall i, j :: 0 <= i < j < |rs| ==> rs[i].at <= rs[j].at
  }

  /** The in-memory store never forgets: a token is revoked exactly when some call revoked it. */
  lemma {:induction false} MemoryNeverForgets(rs: seq<Revoking>, jti: string)
    ensures jti in MemoryAfter(rs) <==> exists i :: 0 <= i < |rs| && rs[i].jti == jti
  {
    if rs != [] {
      MemoryNeverForgets(rs[..|rs| - 1], jti);
      assert forall i :: 0 <= i < |rs| - 1 ==> rs[..|rs| - 1][i] == rs[i];
    }
  }

  /** With the clock going forward, the Redis store reads as revoked exactly what some call revoked within the time to live. */
  lemma {:induction false} RedisForgetsWithTime(prefix: string, ttlSec: int, rs: seq<Revoking>, jti: string, now: int)
    requires InClockOrder(rs)
    ensures Present(RedisAfter(prefix, ttlSec, rs), RevokeKey(prefix, jti), now) <==>
            exists i :: 0 <= i < |rs| && rs[i].jti == jti && now < rs[i].at + 1000 * ttlSec
  {
    if rs != [] {
      var n := |rs| - 1;
      RedisForgetsWithTime(prefix, ttlSec, rs[..n], jti, now);
      RevokeKeysDiffer(prefix, jti, rs[n].jti);
      assert forall i :: 0 <= i < n ==> rs[..n][i] == rs[i];
    }
  }

  /** What a token's key holds is the record of its last revoke, until the time to live has passed since. */
  lemma {:induction false} KeyHoldsTheLastRevoke(prefix: string, ttlSec: int, rs: seq<Revoking>, jti: string)
    ensures var keys, key, i := RedisAfter(prefix, ttlSec, rs), RevokeKey(prefix, jti), LastRevoke(rs, jti);
            && (key in keys <==> i >= 0)
            && (i >= 0 ==> keys[key] == Entry(RecordOf(rs[i]), Some(rs[i].at + 1000 * ttlSec)))
  {
    if rs != [] {
      KeyHoldsTheLastRevoke(prefix, ttlSec, rs[..|rs| - 1], jti);
      RevokeKeysDiffer(prefix, jti, rs[|rs| - 1].jti);
    }
  }

  // ------------------------------------------------------------------ the stores

  class InMemoryRevocationStore {
    var records: map<string, Record>
    ghost var history: seq<Revoking>

    ghost predicate Valid()
      reads this
    {
      records == MemoryAfter(history)
    }

    constructor ()
      ensures Valid() && history == []
    {
      records, history := map[], [];
    }

    method Revoke(r: Revoking) returns (record: Record)
      requires Valid()
      modifies this
      ensures Valid() && history == old(history) + [r]
      ensures record == Record(r.jti, r.at, r.reason, r.revokedBy) && r.jti in records && records[r.jti] == record
    {
      record := Record(r.jti, r.at, r.reason, r.revokedBy);
      records := records[r.jti := record];
      assert (history + [r])[..|history|] == history;
      history := history + [r];
    }

    /** True exactly when some call revoked the token. */
    method IsRevoked(jti: string) returns (b: bool)
      requires Valid()
      ensures b <==> exists i :: 0 <= i < |history| && history[i].jti == jti
    {
      MemoryNeverForgets(history, jti);
      b := jti in records;
    }
  }

  /** `history` is every revoke that reached the database, by whichever gateway. */
  class RedisRevocationStore {
    const prefix: string
    const ttlSec: int
    var keys: Keys
    ghost var history: seq<Revoking>

    ghost predicate Valid()
      reads this
    {
      keys == RedisAfter(prefix, ttlSec, history) && InClockOrder(history)
    }

    constructor (prefix: string, ttlSec: int)
      ensures Valid() && history == [] && this.prefix == prefix && this.ttlSec == ttlSec
    {
      this.prefix, this.ttlSec := prefix, ttlSec;
      keys, history := map[], [];
    }

    method Revoke(r: Revoking) returns (record: Record)
      requires Valid() && (history != [] ==> history[|history| - 1].at <= r.at)
      modifies this
      ensures Valid() && history == old(history) + [r] && record == Record(r.jti, r.at, r.reason, r.revokedBy)
    {
      record := Record(r.jti, r.at, r.reason, r.revokedBy);
      keys := keys[prefix + ":" + r.jti := Entry(record, Some(r.at + 1000 * ttlSec))];
      assert (history + [r])[..|history|] == history;
      history := history + [r];
    }

    /** True exactly when some call revoked the token within the time to live. */
    method IsRevoked(jti: string, now: int) returns (b: bool)
      requires Valid()
      ensures b <==> exists i :: 0 <= i < |history| && history[i].jti == jti && now < history[i].at + 1000 * ttlSec
    {
      RedisForgetsWithTime(prefix, ttlSec, history, jti, now);
      b := Present(keys, prefix + ":" + jti, now);
    }

    /** The record of the last call that revoked the token, while its time to live runs. */
    method GetRecord(jti: string, now: int) returns (r: Option<Record>)
      requires Valid()
      ensures var i := LastRevoke(history, jti);
              r == if i >= 0 && now < history[i].at + 1000 * ttlSec then Some(RecordOf(history[i])) else None
    {
      KeyHoldsTheLastRevoke(prefix, ttlSec, history, jti);
      if !Present(keys, prefix + ":" + jti, now) { return None; }
      r := Some(keys[prefix + ":" + jti].value);
    }
  }

  // ------------------------------------------------- a token's remaining life

  /** Whether an execution validated at instant `t` gets past the expiry check and, later, the revocation check. */
  predicate Admits(claims: Claims, revoked: bool, t: int) {
    Unexpired(claims, t / 1000, CLOCK_TOLERANCE_SEC) && !revoked
  }

  /** The instant a token stops validating. */
  function EndOfLife(claims: Claims): int {
    1000 * (claims.exp + CLOCK_TOLERANCE_SEC)
  }

  lemma UnexpiredUntilEndOfLife(claims: Claims, t: int)
    ensures Unexpired(claims, t / 1000, CLOCK_TOLERANCE_SEC) <==> t < EndOfLife(claims)
  {
  }

  /** With the in-memory store a revoke binds for good. */
  lemma MemoryRevokeBinds(claims: Claims, rs: seq<Revoking>, i: nat, t: int)
    requires i < |rs| && rs[i].jti == claims.jti
    ensures !Admits(claims, claims.jti in MemoryAfter(rs), t)
  {
    MemoryNeverForgets(rs, claims.jti);
  }

  predicate RevokedAt(prefix: string, ttlSec: int, rs: seq<Revoking>, jti: string, t: int) {
    Present(RedisAfter(prefix, ttlSec, rs), RevokeKey(prefix, jti), t)
  }

  /**
   * No execution is admitted whose revocation lookup, at most `delay` milliseconds after its validation,
   * comes at or after `from`.
   */
  ghost predicate BindsFrom(prefix: string, ttlSec: int, rs: seq<Revoking>, claims: Claims, from: int, delay: nat) {
    forall t, u :: t <= u <= t + delay && from <= u ==> !Admits(claims, RevokedAt(prefix, ttlSec, rs, claims.jti, u), t)
  }

  /**
   * After any run of revokes, the last one of a token binds for the rest of the token's life exactly when the time to live
   * reaches from it to the end of that life, the clock tolerance and the wait before the lookup included.
   */
  lemma RedisRevokeBindsExactly(prefix: string, ttlSec: int, rs: seq<Revoking>, claims: Claims, delay: nat)
    requires InClockOrder(rs) && LastRevoke(rs, claims.jti) >= 0 && ttlSec >= 0
    ensures var last := rs[LastRevoke(rs, claims.jti)].at;
            BindsFrom(prefix, ttlSec, rs, claims, last, delay) <==> last + 1000 * ttlSec >= EndOfLife(claims) + delay
  {
    var last := rs[LastRevoke(rs, claims.jti)].at;
    KeyHoldsTheLastRevoke(prefix, ttlSec, rs, claims.jti);
    var t := EndOfLife(claims) - 1;
    var u := if last + 1000 * ttlSec > t then last + 1000 * ttlSec else t;
    UnexpiredUntilEndOfLife(claims, t);
    if last + 1000 * ttlSec < EndOfLife(claims) + delay {
      assert t <= u <= t + delay && last <= u && Admits(claims, RevokedAt(prefix, ttlSec, rs, claims.jti, u), t);
    }
  }

  ghost predicate AlwaysBinds(prefix: string, ttlSec: int, claims: Claims, delay: nat) {
    forall r: Revoking :: r.jti == claims.jti && r.at >= 1000 * claims.iat ==>
      BindsFrom(prefix, ttlSec, [r], claims, r.at, delay)
  }

  /**
   * Whenever in a token's life it is revoked, the revoke binds: true exactly when the time to live covers that life,
   * the tolerance and the wait.
   */
  lemma TimeToLiveCoversExactly(prefix: string, ttlSec: int, claims: Claims, delay: nat)
    requires ttlSec >= 0
    ensures AlwaysBinds(prefix, ttlSec, claims, delay) <==>
            1000 * ttlSec >= 1000 * (claims.exp - claims.iat + CLOCK_TOLERANCE_SEC) + delay
  {
    forall r: Revoking | r.jti == claims.jti
      ensures BindsFrom(prefix, ttlSec, [r], claims, r.at, delay) <==> r.at + 1000 * ttlSec >= EndOfLife(claims) + delay
    {
      RedisRevokeBindsExactly(prefix, ttlSec, [r], claims, delay);
    }
    var first := Revoking(claims.jti, 1000 * claims.iat, None, None);
    assert AlwaysBinds(prefix, ttlSec, claims, delay) ==> BindsFrom(prefix, ttlSec, [first], claims, first.at, delay);
  }

  const DEFAULT_TTL_SEC := 86400

  /**
   * For granted tokens and the default time to live: every revoke binds exactly when the lifetime asked for leaves room
   * for the tolerance and the wait. A lifetime of 86395 seconds leaves room for no wait at all.
   */
  lemma DefaultTimeToLive(prefix: string, input: GrantInput, signerIssuer: Option<string>, now: int, jti: string, delay: nat)
    ensures AlwaysBinds(prefix, DEFAULT_TTL_SEC, Granted(input, signerIssuer, now, jti), delay) <==>
            1000 * OrElse(input.expiresIn, DEFAULT_EXPIRES_SEC) + delay <= 1000 * (MAX_EXPIRES_SEC - CLOCK_TOLERANCE_SEC)
  {
    TimeToLiveCoversExactly(prefix, DEFAULT_TTL_SEC, Granted(input, signerIssuer, now, jti), delay);
  }

  /** The longest grant, revoked at once: a day later the revoke is forgotten and the token still validates. */
  lemma LongestTokensOutliveTheirRevoke(prefix: string, claims: Claims)
    requires claims.exp == claims.iat + MAX_EXPIRES_SEC
    ensures var r, t := Revoking(claims.jti, 1000 * claims.iat, None, None), 1000 * claims.exp;
            Admits(claims, RevokedAt(prefix, DEFAULT_TTL_SEC, [r], claims.jti, t), t)
  {
    var r := Revoking(claims.jti, 1000 * claims.iat, None, None);
    KeyHoldsTheLastRevoke(prefix, DEFAULT_TTL_SEC, [r], claims.jti);
    UnexpiredUntilEndOfLife(claims, 1000 * claims.exp);
  }

  // ----------------------------------------------------- the consumption keys

  /**
   * An operation of an execution on a live token: validated between issue and end of life, and reaching the ledger, expiry
   * commands included, at most `delay` milliseconds later.
   */
  predicate OnLiveToken(tokens: map<string, Claims>, delay: nat, t: Timed) {
    t.op.jti in tokens && 1000 * tokens[t.op.jti].iat <= t.now < EndOfLife(tokens[t.op.jti]) + delay
  }

  /** The keys' time to live covers every token's life, the clock tolerance and the delay. */
  predicate Covered(tokens: map<string, Claims>, ttlSec: nat, delay: nat) {
    forall jti :: jti in tokens ==>
      1000 * (tokens[jti].exp - tokens[jti].iat + CLOCK_TOLERANCE_SEC) + delay <= 1000 * ttlSec
  }

  /** From an empty database every sequence of operations on live tokens answers as the in-memory ledger does. */
  ghost predicate NeverForgets(prefix: string, tokens: map<string, Claims>, ttlSec: nat, delay: nat) {
    forall ts {:trigger MemoryRun(Ledger(map[], map[]), ts)} ::
      (forall t :: t in ts ==> OnLiveToken(tokens, delay, t) && SameLimit(t.op)) ==>
        MemoryRun(Ledger(map[], map[]), ts) == RedisRun(Redis(map[], map[]), prefix, Some(1000 * ttlSec), ts)
  }

  lemma LiveTokensKeepTheirKeys(prefix: string, tokens: map<string, Claims>, ttlSec: nat, delay: nat, ts: seq<Timed>)
    requires Covered(tokens, ttlSec, delay)
    requires forall t :: t in ts ==> OnLiveToken(tokens, delay, t) && SameLimit(t.op)
    ensures MemoryRun(Ledger(map[], map[]), ts) == RedisRun(Redis(map[], map[]), prefix, Some(1000 * ttlSec), ts)
  {
    var opens := map jti | jti in tokens :: 1000 * tokens[jti].iat;
    forall t | t in ts ensures InWindow(opens, 1000 * ttlSec, t) {
      assert OnLiveToken(tokens, delay, t);
    }
    LiveTokensNeverLoseTheirCount(prefix, 1000 * ttlSec, opens, ts);
  }

  /** An action at one instant with its expiry command, and the next one at another. */
  function TwoActions(jti: string, limit: Option<int>, first: int, second: int): seq<Timed> {
    [Timed(Consume(jti, limit, None), first), Timed(RefreshCount(jti), first), Timed(Consume(jti, limit, None), second)]
  }

  lemma ThreeInMemory(l: Ledger, t: Timed, u: Timed, v: Timed)
    ensures var mid := MemoryStep(MemoryStep(l, t.op).0, u.op).0;
            MemoryRun(l, [t, u, v]) == [MemoryStep(l, t.op).1, MemoryStep(MemoryStep(l, t.op).0, u.op).1, MemoryStep(mid, v.op).1]
  {
    assert [t, u, v][1..] == [u, v] && [u, v][1..] == [v] && [v][1..] == [];
    var l1 := MemoryStep(l, t.op).0;
    var l2 := MemoryStep(l1, u.op).0;
    assert MemoryRun(l2, [v]) == [MemoryStep(l2, v.op).1];
    assert MemoryRun(l1, [u, v]) == [MemoryStep(l1, u.op).1] + MemoryRun(l2, [v]);
  }

  lemma ThreeInRedis(db: Redis, prefix: string, ttl: Option<nat>, t: Timed, u: Timed, v: Timed)
    ensures var db1 := RedisStep(db, prefix, ttl, t).0;
            var db2 := RedisStep(db1, prefix, ttl, u).0;
            RedisRun(db, prefix, ttl, [t, u, v])
              == [RedisStep(db, prefix, ttl, t).1, RedisStep(db1, prefix, ttl, u).1, RedisStep(db2, prefix, ttl, v).1]
  {
    assert [t, u, v][1..] == [u, v] && [u, v][1..] == [v] && [v][1..] == [];
    var db1 := RedisStep(db, prefix, ttl, t).0;
    var db2 := RedisStep(db1, prefix, ttl, u).0;
    assert RedisRun(db2, prefix, ttl, [v]) == [RedisStep(db2, prefix, ttl, v).1];
    assert RedisRun(db1, prefix, ttl, [u, v]) == [RedisStep(db1, prefix, ttl, u).1] + RedisRun(db2, prefix, ttl, [v]);
  }

  /** In memory the second action counts on; in Redis it starts over once the time to live is up. */
  lemma SecondActionStartsOver(prefix: string, ttlMs: nat, jti: string, limit: Option<int>, first: int, second: int)
    requires first + ttlMs <= second && (limit.Some? ==> limit.value > 0)
    ensures var ts := TwoActions(jti, limit, first, second);
            && MemoryRun(Ledger(map[], map[]), ts)
                 == [Consumption(Consumed(true, 1, false)), Nothing,
                     Consumption(if limit == Some(1) then Consumed(false, 1, false) else Consumed(true, 2, false))]
            && RedisRun(Redis(map[], map[]), prefix, Some(ttlMs), ts)
                 == [Consumption(Consumed(true, 1, false)), Nothing, Consumption(Consumed(true, 1, false))]
  {
    var ts := TwoActions(jti, limit, first, second);
    ThreeInMemory(Ledger(map[], map[]), ts[0], ts[1], ts[2]);
    ThreeInRedis(Redis(map[], map[]), prefix, Some(ttlMs), ts[0], ts[1], ts[2]);
  }

  /** No live token's count or request set is ever lost: true exactly when the time to live covers every token. */
  lemma LiveTokensKeepTheirKeysExactly(prefix: string, tokens: map<string, Claims>, ttlSec: nat, delay: nat)
    ensures NeverForgets(prefix, tokens, ttlSec, delay) <==> Covered(tokens, ttlSec, delay)
  {
    if Covered(tokens, ttlSec, delay) {
      forall ts | forall t :: t in ts ==> OnLiveToken(tokens, delay, t) && SameLimit(t.op)
        ensures MemoryRun(Ledger(map[], map[]), ts) == RedisRun(Redis(map[], map[]), prefix, Some(1000 * ttlSec), ts)
      {
        LiveTokensKeepTheirKeys(prefix, tokens, ttlSec, delay, ts);
      }
    } else {
      var jti :| jti in tokens && 1000 * (tokens[jti].exp - tokens[jti].iat + CLOCK_TOLERANCE_SEC) + delay > 1000 * ttlSec;
      var first, last := 1000 * tokens[jti].iat, EndOfLife(tokens[jti]) + delay - 1;
      var ts := TwoActions(jti, None, first, last);
      SecondActionStartsOver(prefix, 1000 * ttlSec, jti, None, first, last);
      assert forall t :: t in ts ==> OnLiveToken(tokens, delay, t) && SameLimit(t.op);
      assert MemoryRun(Ledger(map[], map[]), ts)[2] != RedisRun(Redis(map[], map[]), prefix, Some(1000 * ttlSec), ts)[2];
    }
  }

  /** The longest grant with the default time to live: its one action, taken at once, is granted again a day later. */
  lemma LongestTokensActTwice(prefix: string, claims: Claims)
    requires claims.exp == claims.iat + MAX_EXPIRES_SEC
    ensures var last := 1000 * claims.exp;
            var ts := TwoActions(claims.jti, Some(1), 1000 * claims.iat, last);
            && Unexpired(claims, last / 1000, CLOCK_TOLERANCE_SEC)
            && (forall t :: t in ts ==> OnLiveToken(map[claims.jti := claims], 0, t))
            && MemoryRun(Ledger(map[], map[]), ts)
                 == [Consumption(Consumed(true, 1, false)), Nothing, Consumption(Consumed(false, 1, false))]
            && RedisRun(Redis(map[], map[]), prefix, Some(1000 * DEFAULT_TTL_SEC), ts)
                 == [Consumption(Consumed(true, 1, false)), Nothing, Consumption(Consumed(true, 1, false))]
  {
    SecondActionStartsOver(prefix, 1000 * DEFAULT_TTL_SEC, claims.jti, Some(1), 1000 * claims.iat, 1000 * claims.exp);
  }
}
