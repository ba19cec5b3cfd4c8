/** The consumption ledger: how many actions a token has used, and which request ids are spoken for. */
module Ledgers {
  import opened Prelude

  datatype Ledger = Ledger(counts: map<string, nat>, requests: map<string, set<string>>)

  datatype Consumed = Consumed(allowed: bool, count: int, replay: bool)

  function Count(l: Ledger, jti: string): nat {
    if jti in l.counts then l.counts[jti] else 0
  }

  function RequestsOf(l: Ledger, jti: string): set<string> {
    if jti in l.requests then l.requests[jti] else {}
  }

  /** A request id counts only when it is given and not empty. */
  predicate Tracked(request: Option<string>) {
    request.Some? && request.value != ""
  }

  predicate Replays(l: Ledger, jti: string, request: Option<string>) {
    Tracked(request) && request.value in RequestsOf(l, jti)
  }

  function Reserve(l: Ledger, jti: string, limit: Option<int>, request: Option<string>): (Ledger, Consumed) {
    if Replays(l, jti, request) then (l, Consumed(true, Count(l, jti), true))
    else if limit.Some? && Count(l, jti) >= limit.value then (l, Consumed(false, Count(l, jti), false))
    else
      var requests := if Tracked(request) then l.requests[jti := RequestsOf(l, jti) + {request.value}] else l.requests;
      (Ledger(l.counts[jti := Count(l, jti) + 1], requests), Consumed(true, Count(l, jti) + 1, false))
  }

  function Unreserve(l: Ledger, jti: string, request: Option<string>): Ledger {
    Ledger(
      if Count(l, jti) > 0 then l.counts[jti := Count(l, jti) - 1] else l.counts,
      if Tracked(request) && jti in l.requests then l.requests[jti := l.requests[jti] - {request.value}] else l.requests)
  }

  function Forget(l: Ledger, jti: string): Ledger {
    Ledger(l.counts - {jti}, l.requests - {jti})
  }

  /** The single-process ledger, its calls not overlapping. */
  class ConsumptionLedger {
    var counts: map<string, nat>
    var completedRequests: map<string, set<string>>

    function View(): Ledger
      reads this
    {
      Ledger(counts, completedRequests)
    }

    constructor ()
      ensures View() == Ledger(map[], map[])
    {
      counts, completedRequests := map[], map[];
    }

    method Get(jti: string) returns (n: nat)
      ensures n == Count(View(), jti)
    {
      n := if jti in counts then counts[jti] else 0;
    }

    method TryConsume(jti: string, limit: Option<int>, request: Option<string>) returns (r: Consumed)
      modifies this
      ensures (View(), r) == Reserve(old(View()), jti, limit, request)
    {
      if request.Some? && request.value != "" {
        if jti in completedRequests && request.value in completedRequests[jti] {
          var count := Get(jti);
          return Consumed(true, count, true);
        }
      }
      var current := Get(jti);
      if limit.Some? && current >= limit.value {
        return Consumed(false, current, false);
      }
      var next := current + 1;
      counts := counts[jti := next];
      if request.Some? && request.value != "" {
        var seen := if jti in completedRequests then completedRequests[jti] else {};
        completedRequests := completedRequests[jti := seen + {request.value}];
      }
      r := Consumed(true, next, false);
    }

    method Release(jti: string, request: Option<string>)
      modifies this
      ensures View() == Unreserve(old(View()), jti, request)
    {
      var current := Get(jti);
      if current > 0 {
        counts := counts[jti := current - 1];
      }
      if request.Some? && request.value != "" && jti in completedRequests {
        completedRequests := completedRequests[jti := completedRequests[jti] - {request.value}];
      }
    }

    method Reset(jti: string)
      modifies this
      ensures View() == Forget(old(View()), jti)
    {
      counts := counts - {jti};
      completedRequests := completedRequests - {jti};
    }
  }

  /** A release undoes the reservation it follows: counts and request ids read as before. */
  lemma ReleaseUndoesConsume(l: Ledger, jti: string, limit: Option<int>, request: Option<string>)
    requires var r := Reserve(l, jti, limit, request).1; r.allowed && !r.replay
    ensures var after := Unreserve(Reserve(l, jti, limit, request).0, jti, request);
            && (forall j :: Count(after, j) == Count(l, j))
            && (forall j :: RequestsOf(after, j) == RequestsOf(l, j))
  {
  }
}

/** The ledger kept in Redis: two scripts over expiring keys. Times are in milliseconds. */
module RedisLedger {
  import opened Prelude
  import opened Ledgers

  datatype Entry<T> = Entry(value: T, deadline: Option<int>)

  datatype Redis = Redis(strings: map<string, Entry<nat>>, sets: map<string, Entry<set<string>>>)

  function CountKey(prefix: string, jti: string): string {
    prefix + ":" + jti + ":count"
  }

  function ReqsKey(prefix: string, jti: string): string {
    prefix + ":" + jti + ":reqs"
  }

  lemma MiddleOf(p: string, x: string, q: string)
    ensures |p + x + q| == |p| + |x| + |q| && (p + x + q)[|p|..|p| + |x|] == x
  {
  }

  /** Every token has two keys of its own, so strings and sets may be kept apart. */
  lemma KeysNeverCollide(prefix: string, a: string, b: string)
    ensures CountKey(prefix, a) == CountKey(prefix, b) ==> a == b
    ensures ReqsKey(prefix, a) == ReqsKey(prefix, b) ==> a == b
    ensures CountKey(prefix, a) != ReqsKey(prefix, b)
  {
    MiddleOf(prefix + ":", a, ":count");
    MiddleOf(prefix + ":", b, ":count");
    MiddleOf(prefix + ":", a, ":reqs");
    MiddleOf(prefix + ":", b, ":reqs");
    assert CountKey(prefix, a)[|CountKey(prefix, a)| - 1] == 't';
    assert ReqsKey(prefix, b)[|ReqsKey(prefix, b)| - 1] == 's';
  }

  predicate Present<T>(m: map<string, Entry<T>>, key: string, now: int) {
    key in m && (m[key].deadline.Some? ==> now < m[key].deadline.value)
  }

  function GetString(db: Redis, key: string, now: int): nat {
    if Present(db.strings, key, now) then db.strings[key].value else 0
  }

  function GetSet(db: Redis, key: string, now: int): set<string> {
    if Present(db.sets, key, now) then db.sets[key].value else {}
  }

  function Expire<T>(m: map<string, Entry<T>>, key: string, now: int, ttl: Option<nat>): map<string, Entry<T>> {
    if ttl.Some? && Present(m, key, now) then m[key := m[key].(deadline := Some(now + ttl.value))] else m
  }

  function AddMember(db: Redis, key: string, member: string, now: int): map<string, Entry<set<string>>> {
    var deadline := if Present(db.sets, key, now) then db.sets[key].deadline else None;
    db.sets[key := Entry(GetSet(db, key, now) + {member}, deadline)]
  }

  function RemoveMember(db: Redis, key: string, member: string, now: int): map<string, Entry<set<string>>> {
    if !Present(db.sets, key, now) then db.sets
    else if db.sets[key].value <= {member} then db.sets - {key}
    else db.sets[key := db.sets[key].(value := db.sets[key].value - {member})]
  }

  /** What the consume script does to the database, and its answer. */
  function ConsumeScript(db: Redis, prefix: string, now: int, jti: string, limit: Option<int>, request: Option<string>):
    (Redis, Consumed)
  {
    var countKey, reqsKey := CountKey(prefix, jti), ReqsKey(prefix, jti);
    var current := GetString(db, countKey, now);
    if Tracked(request) && request.value in GetSet(db, reqsKey, now) then (db, Consumed(true, current, true))
    else if limit.Some? && limit.value != -1 && current >= limit.value then (db, Consumed(false, current, false))
    else
      var sets := if Tracked(request) then AddMember(db, reqsKey, request.value, now) else db.sets;
      (Redis(db.strings[countKey := Entry(current + 1, None)], sets), Consumed(true, current + 1, false))
  }

  function ReleaseScript(db: Redis, prefix: string, now: int, jti: string, request: Option<string>): Redis {
    var countKey, reqsKey := CountKey(prefix, jti), ReqsKey(prefix, jti);
    var current := GetString(db, countKey, now);
    var strings := if current > 0 then db.strings[countKey := db.strings[countKey].(value := current - 1)] else db.strings;
    var sets := if Tracked(request) then RemoveMember(db, reqsKey, request.value, now) else db.sets;
    Redis(strings, sets)
  }

  function ExtendCount(db: Redis, prefix: string, ttl: Option<nat>, now: int, jti: string): Redis {
    db.(strings := Expire(db.strings, CountKey(prefix, jti), now, ttl))
  }

  function ExtendReqs(db: Redis, prefix: string, ttl: Option<nat>, now: int, jti: string): Redis {
    db.(sets := Expire(db.sets, ReqsKey(prefix, jti), now, ttl))
  }

  /** The two expiry commands, each at an instant of its own. */
  function Touch(db: Redis, prefix: string, ttl: Option<nat>, jti: string, countAt: int, reqsAt: int): Redis {
    ExtendReqs(ExtendCount(db, prefix, ttl, countAt, jti), prefix, ttl, reqsAt, jti)
  }

  function RedisReset(db: Redis, prefix: string, jti: string): Redis {
    Redis(db.strings - {CountKey(prefix, jti)}, db.sets - {ReqsKey(prefix, jti)})
  }

  class RedisConsumptionStore {
    const prefix: string
    const ttl: Option<nat>
    var db: Redis

    constructor (prefix: string, ttl: Option<nat>, db: Redis)
      ensures this.prefix == prefix && this.ttl == ttl && this.db == db
    {
      this.prefix, this.ttl, this.db := prefix, ttl, db;
    }

    method TouchTtl(jti: string, countAt: int, reqsAt: int)
      modifies this
      ensures db == Touch(old(db), prefix, ttl, jti, countAt, reqsAt)
    {
      if ttl.None? { return; }
      db := db.(strings := Expire(db.strings, CountKey(prefix, jti), countAt, ttl));
      db := db.(sets := Expire(db.sets, ReqsKey(prefix, jti), reqsAt, ttl));
    }

    method Get(jti: string, now: int) returns (n: nat)
      ensures n == GetString(db, CountKey(prefix, jti), now)
    {
      n := GetString(db, CountKey(prefix, jti), now);
    }

    method TryConsume(jti: string, limit: Option<int>, request: Option<string>, now: int, countAt: int, reqsAt: int)
      returns (r: Consumed)
      modifies this
      ensures var (scripted, answer) := ConsumeScript(old(db), prefix, now, jti, limit, request);
              db == Touch(scripted, prefix, ttl, jti, countAt, reqsAt) && r == answer
    {
      r := TryConsumeScript(CountKey(prefix, jti), ReqsKey(prefix, jti), limit, request, now);
      TouchTtl(jti, countAt, reqsAt);
    }

    /** The consume script, command by command. */
    method TryConsumeScript(countKey: string, reqsKey: string, limit: Option<int>, request: Option<string>, now: int)
      returns (r: Consumed)
      modifies this
      ensures var current := GetString(old(db), countKey, now);
              if Tracked(request) && request.value in GetSet(old(db), reqsKey, now)
              then db == old(db) && r == Consumed(true, current, true)
              else if limit.Some? && limit.value != -1 && current >= limit.value
              then db == old(db) && r == Consumed(false, current, false)
              else && r == Consumed(true, current + 1, false)
                   && db.strings == old(db).strings[countKey := Entry(current + 1, None)]
                   && db.sets == if Tracked(request) then AddMember(old(db), reqsKey, request.value, now) else old(db).sets
    {
      var unlimited := limit.None? || limit.value == -1;
      if request.Some? && request.value != "" {
        if request.value in GetSet(db, reqsKey, now) {
          var current := GetString(db, countKey, now);
          return Consumed(true, current, true);
        }
      }
      var current := GetString(db, countKey, now);
      if !unlimited && current >= limit.value {
        return Consumed(false, current, false);
      }
      var next := current + 1;
      db := db.(strings := db.strings[countKey := Entry(next, None)]);
      if request.Some? && request.value != "" {
        db := db.(sets := AddMember(db, reqsKey, request.value, now));
      }
      r := Consumed(true, next, false);
    }

    /** The release script, then the two expiry commands. */
    method Release(jti: string, request: Option<string>, now: int, countAt: int, reqsAt: int)
      modifies this
      ensures db == Touch(ReleaseScript(old(db), prefix, now, jti, request), prefix, ttl, jti, countAt, reqsAt)
    {
      var countKey, reqsKey := CountKey(prefix, jti), ReqsKey(prefix, jti);
      var current := GetString(db, countKey, now);
      if current > 0 {
        db := db.(strings := db.strings[countKey := db.strings[countKey].(value := current - 1)]);
      }
      if request.Some? && request.value != "" {
        db := db.(sets := RemoveMember(db, reqsKey, request.value, now));
      }
      TouchTtl(jti, countAt, reqsAt);
    }

    method Reset(jti: string)
      modifies this
      ensures db == RedisReset(old(db), prefix, jti)
    {
      db := Redis(db.strings - {CountKey(prefix, jti)}, db.sets - {ReqsKey(prefix, jti)});
    }
  }

  // ------------------------------------------------------------------ refinement

  /** Everything that reaches the ledger, from any number of gateways: the calls, and the expiry commands that trail them. */
  datatype Op =
    | Consume(jti: string, limit: Option<int>, request: Option<string>)
    | Undo(jti: string, request: Option<string>)
    | Read(jti: string)
    | Clear(jti: string)
    | RefreshCount(jti: string)
    | RefreshReqs(jti: string)

  datatype Timed = Timed(op: Op, now: int)

  datatype Answer = Consumption(consumed: Consumed) | Reading(count: int) | Nothing

  /** The in-memory ledger knows no expiry. */
  function MemoryStep(l: Ledger, op: Op): (Ledger, Answer) {
    match op
    case Consume(jti, limit, request) => var (l', r) := Reserve(l, jti, limit, request); (l', Consumption(r))
    case Undo(jti, request) => (Unreserve(l, jti, request), Nothing)
    case Read(jti) => (l, Reading(Count(l, jti)))
    case Clear(jti) => (Forget(l, jti), Nothing)
    case RefreshCount(_) => (l, Nothing)
    case RefreshReqs(_) => (l, Nothing)
  }

  function RedisStep(db: Redis, prefix: string, ttl: Option<nat>, t: Timed): (Redis, Answer) {
    match t.op
    case Consume(jti, limit, request) =>
      var (db', r) := ConsumeScript(db, prefix, t.now, jti, limit, request); (db', Consumption(r))
    case Undo(jti, request) => (ReleaseScript(db, prefix, t.now, jti, request), Nothing)
    case Read(jti) => (db, Reading(GetString(db, CountKey(prefix, jti), t.now)))
    case Clear(jti) => (RedisReset(db, prefix, jti), Nothing)
    case RefreshCount(jti) => (ExtendCount(db, prefix, ttl, t.now, jti), Nothing)
    case RefreshReqs(jti) => (ExtendReqs(db, prefix, ttl, t.now, jti), Nothing)
  }

  /** A token's keys have not run out at `now`. */
  predicate Fresh(db: Redis, prefix: string, jti: string, now: int) {
    && (CountKey(prefix, jti) in db.strings ==> Present(db.strings, CountKey(prefix, jti), now))
    && (ReqsKey(prefix, jti) in db.sets ==> Present(db.sets, ReqsKey(prefix, jti), now))
  }

  function StoredCount(db: Redis, prefix: string, jti: string): nat {
    if CountKey(prefix, jti) in db.strings then db.strings[CountKey(prefix, jti)].value else 0
  }

  function StoredReqs(db: Redis, prefix: string, jti: string): set<string> {
    if ReqsKey(prefix, jti) in db.sets then db.sets[ReqsKey(prefix, jti)].value else {}
  }

  predicate AgreeOn(l: Ledger, db: Redis, prefix: string, jti: string) {
    StoredCount(db, prefix, jti) == Count(l, jti) && StoredReqs(db, prefix, jti) == RequestsOf(l, jti)
  }

  /** The simulation relation: both stores hold the same for every token. */
  ghost predicate Mirrors(l: Ledger, db: Redis, prefix: string) {
    forall jti :: AgreeOn(l, db, prefix, jti)
  }

  /** The one limit the two ledgers read differently: Lua takes -1 for unlimited. */
  predicate SameLimit(op: Op) {
    op.Consume? ==> op.limit != Some(-1)
  }

  lemma OtherTokensKeepTheirKeys(l: Ledger, db: Redis, prefix: string, ttl: Option<nat>, t: Timed, jti: string)
    requires jti != t.op.jti && AgreeOn(l, db, prefix, jti)
    ensures AgreeOn(MemoryStep(l, t.op).0, RedisStep(db, prefix, ttl, t).0, prefix, jti)
  {
    KeysNeverCollide(prefix, jti, t.op.jti);
  }

  /** One operation in time on a token whose stores agree: the same answer, and they agree again. */
  lemma OwnTokenAgrees(l: Ledger, db: Redis, prefix: string, ttl: Option<nat>, t: Timed)
    requires AgreeOn(l, db, prefix, t.op.jti) && SameLimit(t.op) && Fresh(db, prefix, t.op.jti, t.now)
    ensures MemoryStep(l, t.op).1 == RedisStep(db, prefix, ttl, t).1
    ensures AgreeOn(MemoryStep(l, t.op).0, RedisStep(db, prefix, ttl, t).0, prefix, t.op.jti)
  {
  }

  /** One operation on each side, in time: the same answer, and the stores still mirror each other. */
  lemma StepRefines(l: Ledger, db: Redis, prefix: string, ttl: Option<nat>, t: Timed)
    requires Mirrors(l, db, prefix) && SameLimit(t.op) && Fresh(db, prefix, t.op.jti, t.now)
    ensures MemoryStep(l, t.op).1 == RedisStep(db, prefix, ttl, t).1
    ensures Mirrors(MemoryStep(l, t.op).0, RedisStep(db, prefix, ttl, t).0, prefix)
  {
    OwnTokenAgrees(l, db, prefix, ttl, t);
    forall jti ensures AgreeOn(MemoryStep(l, t.op).0, RedisStep(db, prefix, ttl, t).0, prefix, jti) {
      if jti != t.op.jti { OtherTokensKeepTheirKeys(l, db, prefix, ttl, t, jti); }
    }
  }

  function MemoryRun(l: Ledger, ts: seq<Timed>): seq<Answer>
    decreases |ts|
  {
    if ts == [] then [] else [MemoryStep(l, ts[0].op).1] + MemoryRun(MemoryStep(l, ts[0].op).0, ts[1..])
  }

  function RedisRun(db: Redis, prefix: string, ttl: Option<nat>, ts: seq<Timed>): seq<Answer>
    decreases |ts|
  {
    if ts == [] then []
    else [RedisStep(db, prefix, ttl, ts[0]).1] + RedisRun(RedisStep(db, prefix, ttl, ts[0]).0, prefix, ttl, ts[1..])
  }

  /** Every operation comes before the keys of its token run out. */
  predicate InTime(db: Redis, prefix: string, ttl: Option<nat>, ts: seq<Timed>)
    decreases |ts|
  {
    ts == []
    || (Fresh(db, prefix, ts[0].op.jti, ts[0].now) && InTime(RedisStep(db, prefix, ttl, ts[0]).0, prefix, ttl, ts[1..]))
  }

  /** The Redis ledger refines the in-memory one over every sequence of scripts and expiry commands. */
  lemma {:induction false} RedisRefinesMemory(l: Ledger, db: Redis, prefix: string, ttl: Option<nat>, ts: seq<Timed>)
    requires Mirrors(l, db, prefix) && InTime(db, prefix, ttl, ts)
    requires forall t :: t in ts ==> SameLimit(t.op)
    ensures MemoryRun(l, ts) == RedisRun(db, prefix, ttl, ts)
    decreases |ts|
  {
    if ts != [] {
      StepRefines(l, db, prefix, ttl, ts[0]);
      RedisRefinesMemory(MemoryStep(l, ts[0].op).0, RedisStep(db, prefix, ttl, ts[0]).0, prefix, ttl, ts[1..]);
    }
  }

  /** Every operation on a token falls in a window no longer than the time to live. */
  predicate InWindow(opens: map<string, int>, ttl: nat, t: Timed) {
    t.op.jti in opens && opens[t.op.jti] <= t.now < opens[t.op.jti] + ttl
  }

  predicate LastsUntil<T>(m: map<string, Entry<T>>, key: string, end: int) {
    key in m && m[key].deadline.Some? ==> end <= m[key].deadline.value
  }

  /** No key of a token runs out before its window closes. */
  ghost predicate Lasting(db: Redis, prefix: string, opens: map<string, int>, ttl: nat) {
    forall jti :: jti in opens ==>
      LastsUntil(db.strings, CountKey(prefix, jti), opens[jti] + ttl) && LastsUntil(db.sets, ReqsKey(prefix, jti), opens[jti] + ttl)
  }

  lemma WindowStepLasts(db: Redis, prefix: string, opens: map<string, int>, ttl: nat, t: Timed)
    requires Lasting(db, prefix, opens, ttl) && InWindow(opens, ttl, t)
    ensures Lasting(RedisStep(db, prefix, Some(ttl), t).0, prefix, opens, ttl)
  {
    var db' := RedisStep(db, prefix, Some(ttl), t).0;
    forall jti | jti in opens
      ensures LastsUntil(db'.strings, CountKey(prefix, jti), opens[jti] + ttl)
              && LastsUntil(db'.sets, ReqsKey(prefix, jti), opens[jti] + ttl)
    {
      KeysNeverCollide(prefix, jti, t.op.jti);
      assert LastsUntil(db.strings, CountKey(prefix, jti), opens[jti] + ttl);
    }
  }

  lemma {:induction false} WindowsAreInTime(db: Redis, prefix: string, opens: map<string, int>, ttl: nat, ts: seq<Timed>)
    requires Lasting(db, prefix, opens, ttl) && forall t :: t in ts ==> InWindow(opens, ttl, t)
    ensures InTime(db, prefix, Some(ttl), ts)
    decreases |ts|
  {
    if ts != [] {
      assert InWindow(opens, ttl, ts[0]);
      assert LastsUntil(db.strings, CountKey(prefix, ts[0].op.jti), opens[ts[0].op.jti] + ttl);
      WindowStepLasts(db, prefix, opens, ttl, ts[0]);
      WindowsAreInTime(RedisStep(db, prefix, Some(ttl), ts[0]).0, prefix, opens, ttl, ts[1..]);
    }
  }

  /**
   * While tokens live no longer than the keys' time to live, no count or request set is ever lost:
   * from an empty database every run of operations made on live tokens answers as the in-memory ledger does.
   */
  lemma LiveTokensNeverLoseTheirCount(prefix: string, ttl: nat, opens: map<string, int>, ts: seq<Timed>)
    requires forall t :: t in ts ==> InWindow(opens, ttl, t) && SameLimit(t.op)
    ensures MemoryRun(Ledger(map[], map[]), ts) == RedisRun(Redis(map[], map[]), prefix, Some(ttl), ts)
  {
    WindowsAreInTime(Redis(map[], map[]), prefix, opens, ttl, ts);
    RedisRefinesMemory(Ledger(map[], map[]), Redis(map[], map[]), prefix, Some(ttl), ts);
  }

  /** Where the ledgers part: on mirrored stores a consume differs exactly for the limit -1 on a request not seen before. */
  lemma LimitsReadAlikeExactly(l: Ledger, db: Redis, prefix: string, ttl: Option<nat>, t: Timed)
    requires t.op.Consume? && AgreeOn(l, db, prefix, t.op.jti) && Fresh(db, prefix, t.op.jti, t.now)
    ensures MemoryStep(l, t.op).1 == RedisStep(db, prefix, ttl, t).1 <==>
            SameLimit(t.op) || Replays(l, t.op.jti, t.op.request)
  {
  }

  /** Once the time to live has passed since the expiry commands behind a call on a token, its count reads zero again. */
  lemma ExpiredCountIsForgotten(db: Redis, prefix: string, ttl: nat, jti: string, countAt: int, reqsAt: int, later: int)
    requires Fresh(db, prefix, jti, countAt) && Fresh(db, prefix, jti, reqsAt) && ttl > 0
    requires countAt + ttl <= later && reqsAt + ttl <= later
    ensures GetString(Touch(db, prefix, Some(ttl), jti, countAt, reqsAt), CountKey(prefix, jti), later) == 0
    ensures GetSet(Touch(db, prefix, Some(ttl), jti, countAt, reqsAt), ReqsKey(prefix, jti), later) == {}
  {
  }
}
