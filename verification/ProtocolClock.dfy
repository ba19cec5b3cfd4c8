/**
 * The protocol over Redis stores whose keys expire: with times to live that cover the tokens' lives, every run with a clock is
 * a run of the protocol without one, so all that holds of those holds here.
 */
module ProtocolClock {
  import opened Prelude
  import Policy
  import opened Tokens
  import opened Ledgers
  import opened Revocation
  import opened Protocol
  import opened ProtocolQuota
  import opened ProtocolSafety
  import R = RedisLedger

  /** Key prefixes and times to live, and the longest an execution takes from its validation to its last look at a store. */
  datatype Settings = Settings(prefix: string, ttlSec: nat, revokePrefix: string, revokeTtlSec: nat, delay: nat)

  /** The protocol's state with its ledger and its revocations kept in Redis, and the instant each execution was validated. */
  datatype Clocked = Clocked(s: State, db: R.Redis, keys: Keys, began: map<nat, int>)

  /** A step of an execution or an operator, or one of the expiry commands that trail the scripts. */
  datatype Happening = Do(step: Step) | ExpireCount(jti: string) | ExpireReqs(jti: string)

  datatype At = At(what: Happening, now: int)

  function Empty(): Clocked {
    Clocked(Initial(), R.Redis(map[], map[]), map[], map[])
  }

  // ---------------------------------------------------------------------- steps

  /** The token whose entries in the stores a step looks at. */
  function TokenOf(s: State, step: Step): string
    requires Enabled(s, step)
  {
    match step
    case CheckRevocation(tid) => s.threads[tid].call.claims.jti
    case ReadCount(tid) => s.threads[tid].call.claims.jti
    case Consume(tid) => s.threads[tid].call.claims.jti
    case ReleaseReservation(tid) => s.threads[tid].call.claims.jti
    case _ => ""
  }

  /** What a step sees at an instant: the protocol's state, with the stores as they then read for its token. */
  function Seen(cfg: Settings, c: Clocked, jti: string, now: int): State {
    c.s.(ledger := Ledger(map[jti := R.GetString(c.db, R.CountKey(cfg.prefix, jti), now)],
                          map[jti := R.GetSet(c.db, R.ReqsKey(cfg.prefix, jti), now)]),
         revoked := if R.Present(c.keys, RevokeKey(cfg.revokePrefix, jti), now) then {jti} else {})
  }

  /** The operation a step performs on the ledger. */
  function LedgerOp(s: State, step: Step): Option<R.Op>
    requires Enabled(s, step)
  {
    match step
    case Consume(tid) =>
      var call := s.threads[tid].call; Some(R.Consume(call.claims.jti, LimitOf(call.claims), call.input.requestId))
    case ReleaseReservation(tid) =>
      var call := s.threads[tid].call; Some(R.Undo(call.claims.jti, call.input.requestId))
    case _ => None
  }

  function DbAfter(cfg: Settings, c: Clocked, op: Option<R.Op>, now: int): R.Redis {
    if op.None? then c.db else R.RedisStep(c.db, cfg.prefix, Some(1000 * cfg.ttlSec), R.Timed(op.value, now)).0
  }

  function KeysAfter(cfg: Settings, c: Clocked, step: Step, now: int): Keys {
    if step.Revoke? then AfterRevoke(c.keys, cfg.revokePrefix, cfg.revokeTtlSec, Revoking(step.jti, now, None, None)) else c.keys
  }

  function StepAt(env: Env, cfg: Settings, c: Clocked, step: Step, now: int): Clocked
    requires Enabled(c.s, step)
  {
    var after := Next(env, Seen(cfg, c, TokenOf(c.s, step), now), step);
    Clocked(after.(ledger := c.s.ledger, revoked := c.s.revoked),
            DbAfter(cfg, c, LedgerOp(c.s, step), now),
            KeysAfter(cfg, c, step, now),
            if step.Begin? then c.began[step.tid := now] else c.began)
  }

  function NextAt(env: Env, cfg: Settings, c: Clocked, e: At): Clocked
    requires e.what.Do? ==> Enabled(c.s, e.what.step)
  {
    match e.what
    case Do(step) => StepAt(env, cfg, c, step, e.now)
    case ExpireCount(jti) => c.(db := DbAfter(cfg, c, Some(R.RefreshCount(jti)), e.now))
    case ExpireReqs(jti) => c.(db := DbAfter(cfg, c, Some(R.RefreshReqs(jti)), e.now))
  }

  // ------------------------------------------------------- what a deployment has to see to

  predicate LooksUp(step: Step) {
    step.CheckRevocation? || step.ReadCount? || step.Consume? || step.ReleaseReservation?
  }

  /**
   * Validation reads the clock, tokens are not used or revoked before they are issued, no look at a store comes later than
   * the delay after its execution's validation, and expiry commands trail the scripts of executions on live tokens.
   */
  predicate OnTime(env: Env, cfg: Settings, c: Clocked, e: At) {
    match e.what
    case Do(step) =>
      && Enabled(c.s, step)
      && (step.Begin? ==>
            step.now == e.now / 1000 && (step.input.token in env.tokens ==> 1000 * env.tokens[step.input.token].iat <= e.now))
      && (LooksUp(step) ==> step.tid in c.began ==> c.began[step.tid] <= e.now <= c.began[step.tid] + cfg.delay)
      && (step.Revoke? ==>
            forall token :: token in env.tokens && env.tokens[token].jti == step.jti ==> 1000 * env.tokens[token].iat <= e.now)
    case ExpireCount(jti) => exists token :: token in env.tokens && Alive(env.tokens[token], cfg.delay, jti, e.now)
    case ExpireReqs(jti) => exists token :: token in env.tokens && Alive(env.tokens[token], cfg.delay, jti, e.now)
  }

  predicate Alive(claims: Claims, delay: nat, jti: string, now: int) {
    claims.jti == jti && 1000 * claims.iat <= now < EndOfLife(claims) + delay
  }

  /** Both times to live cover every token's life, the tolerance and the delay. */
  predicate LongEnough(env: Env, cfg: Settings) {
    forall token :: token in env.tokens ==>
      var life := 1000 * (env.tokens[token].exp - env.tokens[token].iat + CLOCK_TOLERANCE_SEC) + cfg.delay;
      life <= 1000 * cfg.ttlSec && life <= 1000 * cfg.revokeTtlSec
  }

  /** When each token was issued. */
  predicate IssuedAt(env: Env, opens: map<string, int>) {
    forall token :: token in env.tokens ==> env.tokens[token].jti in opens && opens[env.tokens[token].jti] == 1000 * env.tokens[token].iat
  }

  // ------------------------------------------------------------------- refinement

  /** The same but for the ledger and the revocations. */
  predicate SameView(a: State, b: State) {
    && a.requests == b.requests && a.versions == b.versions && a.audit == b.audit
    && a.sessions == b.sessions && a.threads == b.threads
  }

  /** Keys stand for revocations, and last as long as any token they stand for. */
  ghost predicate RevocationsHold(env: Env, cfg: Settings, revoked: set<string>, keys: Keys) {
    && (forall jti :: RevokeKey(cfg.revokePrefix, jti) in keys ==> jti in revoked)
    && (forall token :: token in env.tokens && env.tokens[token].jti in revoked ==>
          R.LastsUntil(keys, RevokeKey(cfg.revokePrefix, env.tokens[token].jti), EndOfLife(env.tokens[token]) + cfg.delay)
          && RevokeKey(cfg.revokePrefix, env.tokens[token].jti) in keys)
  }

  /** Every execution under way was validated while its token was live. */
  predicate Started(env: Env, s: State, began: map<nat, int>) {
    forall t :: t in s.threads && !s.threads[t].Done? ==>
      t in began && 1000 * s.threads[t].call.claims.iat <= began[t] < EndOfLife(s.threads[t].call.claims)
  }

  ghost predicate Refines(env: Env, cfg: Settings, opens: map<string, int>, a: State, c: Clocked) {
    && SameView(a, c.s) && GenuineCalls(env, a) && Started(env, a, c.began)
    && R.Mirrors(a.ledger, c.db, cfg.prefix) && R.Lasting(c.db, cfg.prefix, opens, 1000 * cfg.ttlSec)
    && RevocationsHold(env, cfg, a.revoked, c.keys)
  }

  lemma SameBegin(env: Env, a: State, b: State, tid: nat, input: Input, now: int)
    requires SameView(a, b)
    ensures SameView(DoBegin(env, a, tid, input, now), DoBegin(env, b, tid, input, now))
  {
  }

  lemma SameBind(a: State, b: State, tid: nat, call: Call)
    requires SameView(a, b)
    ensures SameView(DoBind(a, tid, call), DoBind(b, tid, call))
  {
  }

  lemma SameConsume(a: State, b: State, tid: nat, call: Call, ctx: Policy.Context)
    requires SameView(a, b) && Count(a.ledger, call.claims.jti) == Count(b.ledger, call.claims.jti)
    requires RequestsOf(a.ledger, call.claims.jti) == RequestsOf(b.ledger, call.claims.jti)
    ensures SameView(DoConsume(a, tid, call, ctx), DoConsume(b, tid, call, ctx))
  {
  }

  /** A step sees no more of the ledger and the revocations than what concerns its own token. */
  lemma OnlyOwnTokenMatters(env: Env, a: State, b: State, step: Step)
    requires SameView(a, b) && Enabled(a, step)
    requires var jti := TokenOf(a, step);
             LooksUp(step) ==> && Count(a.ledger, jti) == Count(b.ledger, jti)
                               && RequestsOf(a.ledger, jti) == RequestsOf(b.ledger, jti)
                               && (jti in a.revoked <==> jti in b.revoked)
    ensures SameView(Next(env, a, step), Next(env, b, step))
  {
    if step.Begin? {
      SameBegin(env, a, b, step.tid, step.input, step.now);
    } else if step.BindApproval? {
      SameBind(a, b, step.tid, a.threads[step.tid].call);
    } else if step.Decide? {
      var call := a.threads[step.tid].call;
      SameDecision(env, a, b, step.tid, call, ContextOf(call, a.threads[step.tid].count, step.hour), step.approvalId, step.now);
    } else if step.Consume? {
      SameConsume(a, b, step.tid, a.threads[step.tid].call, a.threads[step.tid].ctx);
    } else if step.Record? {
      SameRecord(a, b, step.tid);
    } else if step.AdapterOk? {
      SameCompletion(env, a, b, step.tid);
    }
  }

  lemma SameCompletion(env: Env, a: State, b: State, tid: nat)
    requires SameView(a, b) && Enabled(a, AdapterOk(tid))
    ensures SameView(Next(env, a, AdapterOk(tid)), Next(env, b, AdapterOk(tid)))
  {
  }

  lemma SameVerdict(a: State, b: State, tid: nat, call: Call, ctx: Policy.Context, verdict: Policy.Decision,
                    reason: Policy.Reason, approvalId: string, now: int)
    requires SameView(a, b)
    ensures SameView(DoDecide(a, tid, call, ctx, verdict, reason, approvalId, now),
                     DoDecide(b, tid, call, ctx, verdict, reason, approvalId, now))
  {
    match verdict
    case Allow =>
    case Deny =>
    case RequireApproval =>
    case Simulate =>
  }

  lemma SameDecision(env: Env, a: State, b: State, tid: nat, call: Call, ctx: Policy.Context, approvalId: string, now: int)
    requires SameView(a, b)
    ensures SameView(DoEvaluate(env, a, tid, call, ctx, approvalId, now), DoEvaluate(env, b, tid, call, ctx, approvalId, now))
  {
    var policy := PolicyFor(env, a.versions, call.claims);
    if policy.Some? {
      var e := env.engine.evaluate(policy.value.doc, ctx);
      SameVerdict(Resolving(env, a, call.claims), Resolving(env, b, call.claims), tid, call, ctx,
                  VerdictOf(e, ctx.simulate), ReasonOf(e), approvalId, now);
    }
  }

  lemma SameRecord(a: State, b: State, tid: nat)
    requires SameView(a, b) && Enabled(a, Step.Record(tid))
    ensures SameView(DoRecord(a, tid, a.threads[tid]), DoRecord(b, tid, b.threads[tid]))
  {
  }

  lemma LastingIsFresh(cfg: Settings, db: R.Redis, opens: map<string, int>, jti: string, now: int)
    requires R.Lasting(db, cfg.prefix, opens, 1000 * cfg.ttlSec) && jti in opens && now < opens[jti] + 1000 * cfg.ttlSec
    ensures R.Fresh(db, cfg.prefix, jti, now)
  {
    assert R.LastsUntil(db.strings, R.CountKey(cfg.prefix, jti), opens[jti] + 1000 * cfg.ttlSec);
  }

  /** An execution's looks at the stores fall in its token's window. */
  lemma LooksAreInWindow(env: Env, cfg: Settings, opens: map<string, int>, a: State, c: Clocked, step: Step, now: int)
    requires Refines(env, cfg, opens, a, c) && OnTime(env, cfg, c, At(Do(step), now)) && LooksUp(step)
    requires LongEnough(env, cfg) && IssuedAt(env, opens)
    ensures var claims := a.threads[step.tid].call.claims; var jti := TokenOf(a, step);
            && jti == claims.jti && a.threads[step.tid].call.input.token in env.tokens
            && claims == env.tokens[a.threads[step.tid].call.input.token] && ValidClaims(claims)
            && Alive(claims, cfg.delay, jti, now)
            && jti in opens && opens[jti] <= now < opens[jti] + 1000 * cfg.ttlSec
  {
    assert Genuine(env, a.threads[step.tid].call);
  }

  /** What a step sees of its token in the stores is what the ledger and the revocations hold. */
  lemma SeenIsTrue(env: Env, cfg: Settings, opens: map<string, int>, a: State, c: Clocked, step: Step, now: int)
    requires Refines(env, cfg, opens, a, c) && OnTime(env, cfg, c, At(Do(step), now)) && LooksUp(step)
    requires LongEnough(env, cfg) && IssuedAt(env, opens)
    ensures var jti := TokenOf(a, step); var seen := Seen(cfg, c, jti, now);
            && Count(a.ledger, jti) == Count(seen.ledger, jti) && RequestsOf(a.ledger, jti) == RequestsOf(seen.ledger, jti)
            && (jti in a.revoked <==> jti in seen.revoked)
  {
    var jti := TokenOf(a, step);
    LooksAreInWindow(env, cfg, opens, a, c, step, now);
    LastingIsFresh(cfg, c.db, opens, jti, now);
    assert R.AgreeOn(a.ledger, c.db, cfg.prefix, jti);
  }

  lemma ViewFollows(env: Env, cfg: Settings, opens: map<string, int>, a: State, c: Clocked, step: Step, now: int)
    requires Refines(env, cfg, opens, a, c) && OnTime(env, cfg, c, At(Do(step), now))
    requires LongEnough(env, cfg) && IssuedAt(env, opens)
    ensures Enabled(a, step) && SameView(Next(env, a, step), StepAt(env, cfg, c, step, now).s)
  {
    if LooksUp(step) { SeenIsTrue(env, cfg, opens, a, c, step, now); }
    OnlyOwnTokenMatters(env, a, Seen(cfg, c, TokenOf(c.s, step), now), step);
  }

  // ------------------------------------------------------------------- the ledger

  /** The protocol's ledger is the in-memory one, stepped by the same operation; its revocations only grow by revoking. */
  lemma LedgerFollows(env: Env, s: State, step: Step)
    requires Enabled(s, step)
    ensures var op := LedgerOp(s, step);
            Next(env, s, step).ledger == if op.Some? then R.MemoryStep(s.ledger, op.value).0 else s.ledger
    ensures Next(env, s, step).revoked == if step.Revoke? then s.revoked + {step.jti} else s.revoked
  {
    if step.Decide? {
      var call := s.threads[step.tid].call;
      EvaluateShape(env, s, step.tid, call, ContextOf(call, s.threads[step.tid].count, step.hour), step.approvalId, step.now);
    } else if step.Begin? {
      BeginAdvances(env, s, step.tid, step.input, step.now);
    } else if step.BindApproval? {
      BindAdvances(s, step.tid, s.threads[step.tid].call);
    }
  }

  lemma OperationRefines(cfg: Settings, opens: map<string, int>, l: Ledger, db: R.Redis, t: R.Timed)
    requires R.Mirrors(l, db, cfg.prefix) && R.Lasting(db, cfg.prefix, opens, 1000 * cfg.ttlSec)
    requires R.InWindow(opens, 1000 * cfg.ttlSec, t) && R.SameLimit(t.op)
    ensures var db' := R.RedisStep(db, cfg.prefix, Some(1000 * cfg.ttlSec), t).0;
            R.Mirrors(R.MemoryStep(l, t.op).0, db', cfg.prefix) && R.Lasting(db', cfg.prefix, opens, 1000 * cfg.ttlSec)
  {
    LastingIsFresh(cfg, db, opens, t.op.jti, t.now);
    R.StepRefines(l, db, cfg.prefix, Some(1000 * cfg.ttlSec), t);
    R.WindowStepLasts(db, cfg.prefix, opens, 1000 * cfg.ttlSec, t);
  }

  lemma LedgerRefines(env: Env, cfg: Settings, opens: map<string, int>, a: State, c: Clocked, step: Step, now: int)
    requires Refines(env, cfg, opens, a, c) && OnTime(env, cfg, c, At(Do(step), now))
    requires LongEnough(env, cfg) && IssuedAt(env, opens)
    ensures var db' := DbAfter(cfg, c, LedgerOp(a, step), now);
            R.Mirrors(Next(env, a, step).ledger, db', cfg.prefix) && R.Lasting(db', cfg.prefix, opens, 1000 * cfg.ttlSec)
  {
    LedgerFollows(env, a, step);
    if LedgerOp(a, step).Some? {
      LooksAreInWindow(env, cfg, opens, a, c, step, now);
      OperationRefines(cfg, opens, a.ledger, c.db, R.Timed(LedgerOp(a, step).value, now));
    }
  }

  // -------------------------------------------------- revocations and validations

  lemma RevokingHolds(env: Env, cfg: Settings, revoked: set<string>, keys: Keys, jti: string, now: int)
    requires RevocationsHold(env, cfg, revoked, keys) && LongEnough(env, cfg)
    requires forall token :: token in env.tokens && env.tokens[token].jti == jti ==> 1000 * env.tokens[token].iat <= now
    ensures RevocationsHold(env, cfg, revoked + {jti},
                            AfterRevoke(keys, cfg.revokePrefix, cfg.revokeTtlSec, Revoking(jti, now, None, None)))
  {
    forall other ensures RevokeKey(cfg.revokePrefix, other) == RevokeKey(cfg.revokePrefix, jti) ==> other == jti {
      RevokeKeysDiffer(cfg.revokePrefix, other, jti);
    }
  }

  /** Every execution under way in `after` was under way in `before`, with the same claims. */
  predicate SameClaims(before: State, after: State) {
    forall t :: t in after.threads && !after.threads[t].Done? ==>
      t in before.threads && !before.threads[t].Done? && after.threads[t].call.claims == before.threads[t].call.claims
  }

  lemma DecidedKeepsClaims(s: State, s': State, tid: nat, call: Call, ctx: Policy.Context, verdict: Option<Policy.Decision>)
    requires DecidedFrom(s, s', tid, call, ctx, verdict) && tid in s.threads && s.threads[tid].Counted? && s.threads[tid].call == call
    ensures SameClaims(s, s')
  {
  }

  lemma BindKeepsClaims(s: State, tid: nat, call: Call)
    requires tid in s.threads && s.threads[tid] == Cleared(call)
    ensures SameClaims(s, DoBind(s, tid, call))
  {
  }

  lemma RecordKeepsClaims(s: State, tid: nat)
    requires Enabled(s, Step.Record(tid))
    ensures SameClaims(s, DoRecord(s, tid, s.threads[tid]))
  {
    RecordShape(s, tid);
  }

  /** Past its beginning an execution keeps the claims it was validated with. */
  lemma ClaimsStay(env: Env, s: State, step: Step)
    requires Enabled(s, step) && !step.Begin?
    ensures SameClaims(s, Next(env, s, step))
  {
    if step.Decide? {
      var call := s.threads[step.tid].call;
      var ctx := ContextOf(call, s.threads[step.tid].count, step.hour);
      EvaluateShape(env, s, step.tid, call, ctx, step.approvalId, step.now);
      DecidedKeepsClaims(s, Next(env, s, step), step.tid, call, ctx, FoundVerdict(env, s.versions, call.claims, ctx));
    } else if step.BindApproval? {
      BindKeepsClaims(s, step.tid, s.threads[step.tid].call);
    } else if step.Record? {
      RecordKeepsClaims(s, step.tid);
    }
  }

  lemma BeginStarts(env: Env, s: State, began: map<nat, int>, tid: nat, input: Input, now: int)
    requires Started(env, s, began) && tid !in s.threads
    requires input.token in env.tokens ==> 1000 * env.tokens[input.token].iat <= now
    ensures Started(env, DoBegin(env, s, tid, input, now / 1000), began[tid := now])
  {
    if input.token in env.tokens { UnexpiredUntilEndOfLife(env.tokens[input.token], now); }
  }

  lemma StartedFollows(env: Env, cfg: Settings, a: State, c: Clocked, step: Step, now: int)
    requires SameView(a, c.s) && Started(env, a, c.began) && OnTime(env, cfg, c, At(Do(step), now)) && Enabled(a, step)
    ensures Started(env, Next(env, a, step), if step.Begin? then c.began[step.tid := now] else c.began)
  {
    if step.Begin? {
      BeginStarts(env, a, c.began, step.tid, step.input, now);
    } else {
      ClaimsStay(env, a, step);
    }
  }

  // ----------------------------------------------------------------------- runs

  /** One step with the clock, in time, is one step without it. */
  lemma StepAtRefines(env: Env, cfg: Settings, opens: map<string, int>, a: State, c: Clocked, step: Step, now: int)
    requires Refines(env, cfg, opens, a, c) && OnTime(env, cfg, c, At(Do(step), now))
    requires LongEnough(env, cfg) && IssuedAt(env, opens)
    ensures Enabled(a, step) && Refines(env, cfg, opens, Next(env, a, step), StepAt(env, cfg, c, step, now))
  {
    ViewFollows(env, cfg, opens, a, c, step, now);
    StepKeepsGenuine(env, a, step);
    StartedFollows(env, cfg, a, c, step, now);
    LedgerRefines(env, cfg, opens, a, c, step, now);
    LedgerFollows(env, a, step);
    if step.Revoke? { RevokingHolds(env, cfg, a.revoked, c.keys, step.jti, now); }
  }

  /** An expiry command in time changes nothing the protocol can see. */
  lemma ExpiryCommandRefines(env: Env, cfg: Settings, opens: map<string, int>, a: State, c: Clocked, op: R.Op, now: int)
    requires Refines(env, cfg, opens, a, c) && LongEnough(env, cfg) && IssuedAt(env, opens)
    requires op.RefreshCount? || op.RefreshReqs?
    requires exists token :: token in env.tokens && Alive(env.tokens[token], cfg.delay, op.jti, now)
    ensures Refines(env, cfg, opens, a, c.(db := DbAfter(cfg, c, Some(op), now)))
  {
    var token :| token in env.tokens && Alive(env.tokens[token], cfg.delay, op.jti, now);
    OperationRefines(cfg, opens, a.ledger, c.db, R.Timed(op, now));
  }

  predicate IsClockedRun(env: Env, cfg: Settings, c: Clocked, es: seq<At>)
    decreases |es|
  {
    es == [] || (OnTime(env, cfg, c, es[0]) && IsClockedRun(env, cfg, NextAt(env, cfg, c, es[0]), es[1..]))
  }

  function AfterAt(env: Env, cfg: Settings, c: Clocked, es: seq<At>): Clocked
    requires IsClockedRun(env, cfg, c, es)
    decreases |es|
  {
    if es == [] then c else AfterAt(env, cfg, NextAt(env, cfg, c, es[0]), es[1..])
  }

  function StepsOf(es: seq<At>): seq<Step> {
    if es == [] then []
    else if es[0].what.Do? then [es[0].what.step] + StepsOf(es[1..])
    else StepsOf(es[1..])
  }

  lemma HappeningRefines(env: Env, cfg: Settings, opens: map<string, int>, a: State, c: Clocked, e: At)
    requires Refines(env, cfg, opens, a, c) && OnTime(env, cfg, c, e) && LongEnough(env, cfg) && IssuedAt(env, opens)
    ensures e.what.Do? ==>
              Enabled(a, e.what.step) && Refines(env, cfg, opens, Next(env, a, e.what.step), NextAt(env, cfg, c, e))
    ensures !e.what.Do? ==> Refines(env, cfg, opens, a, NextAt(env, cfg, c, e))
  {
    match e.what
    case Do(step) => StepAtRefines(env, cfg, opens, a, c, step, e.now);
    case ExpireCount(jti) => ExpiryCommandRefines(env, cfg, opens, a, c, R.RefreshCount(jti), e.now);
    case ExpireReqs(jti) => ExpiryCommandRefines(env, cfg, opens, a, c, R.RefreshReqs(jti), e.now);
  }

  lemma {:induction false} ClockedRunRefines(env: Env, cfg: Settings, opens: map<string, int>, a: State, c: Clocked, es: seq<At>)
    requires Refines(env, cfg, opens, a, c) && LongEnough(env, cfg) && IssuedAt(env, opens)
    requires IsClockedRun(env, cfg, c, es)
    ensures IsRun(env, a, StepsOf(es))
    ensures Refines(env, cfg, opens, After(env, a, StepsOf(es)), AfterAt(env, cfg, c, es))
    decreases |es|
  {
    if es != [] {
      HappeningRefines(env, cfg, opens, a, c, es[0]);
      var c' := NextAt(env, cfg, c, es[0]);
      if es[0].what.Do? {
        ClockedRunRefines(env, cfg, opens, Next(env, a, es[0].what.step), c', es[1..]);
        assert StepsOf(es)[1..] == StepsOf(es[1..]);
      } else {
        ClockedRunRefines(env, cfg, opens, a, c', es[1..]);
      }
    }
  }

  lemma IssueTimesExist(env: Env) returns (opens: map<string, int>)
    requires UniqueIds(env)
    ensures IssuedAt(env, opens)
  {
    opens := map token | token in env.tokens :: env.tokens[token].jti := 1000 * env.tokens[token].iat;
  }

  // ---------------------------------------------------------------- main results

  /**
   * Whatever interleaves and whatever expires: with times to live that cover the tokens' lives, a run over the Redis stores
   * gives the threads, audit log, approvals, registry and sessions of a run of the protocol, where nothing expires.
   */
  lemma ClockedRunsAreRuns(env: Env, cfg: Settings, es: seq<At>)
    requires UniqueIds(env) && LongEnough(env, cfg) && IsClockedRun(env, cfg, Empty(), es)
    ensures IsRun(env, Initial(), StepsOf(es))
    ensures SameView(After(env, Initial(), StepsOf(es)), AfterAt(env, cfg, Empty(), es).s)
  {
    var opens := IssueTimesExist(env);
    ClockedRunRefines(env, cfg, opens, Initial(), Empty(), es);
  }

  /** So no expiry lets a token complete more actions than its limit, or a request complete twice. */
  lemma ExpiryNeverOverdraws(env: Env, cfg: Settings, es: seq<At>, token: string, request: string)
    requires UniqueIds(env) && LongEnough(env, cfg) && IsClockedRun(env, cfg, Empty(), es)
    requires token in env.tokens && ValidClaims(env.tokens[token]) && request != ""
    ensures var audit := AfterAt(env, cfg, Empty(), es).s.audit; var claims := env.tokens[token];
            && (LimitOf(claims).Some? ==> Spent(audit, ForToken(claims.jti)) <= LimitOf(claims).value)
            && Spent(audit, ForRequest(claims.jti, request)) <= 1
  {
    ClockedRunsAreRuns(env, cfg, es);
    QuotaHoldsOverAllRuns(env, StepsOf(es), token);
    RequestsCompleteAtMostOnce(env, StepsOf(es), env.tokens[token].jti, request);
  }

  lemma RevokedInClockedRun(env: Env, cfg: Settings, opens: map<string, int>, a: State, c: Clocked, es: seq<At>,
                                               jti: string, tid: nat)
    requires Refines(env, cfg, opens, a, c) && LongEnough(env, cfg) && IssuedAt(env, opens) && IsClockedRun(env, cfg, c, es)
    requires jti in a.revoked && (tid in c.s.threads ==> Stopped(c.s.threads[tid], jti))
    ensures var after := AfterAt(env, cfg, c, es).s; tid in after.threads ==> Stopped(after.threads[tid], jti)
  {
    ClockedRunRefines(env, cfg, opens, a, c, es);
    RevocationStopsTheToken(env, a, StepsOf(es), jti, tid);
  }

  /**
   * And no expiry lets a revoked token back in: after any run, a revoke and any further run, an execution that had not
   * passed the check by the revoke has ended in DENY, if it has ended.
   */
  lemma ExpiryNeverReadmits(env: Env, cfg: Settings, before: seq<At>, jti: string, now: int, after: seq<At>, tid: nat)
    requires UniqueIds(env) && LongEnough(env, cfg) && IsClockedRun(env, cfg, Empty(), before)
    requires var c := AfterAt(env, cfg, Empty(), before);
             && OnTime(env, cfg, c, At(Do(Step.Revoke(jti)), now)) && (tid in c.s.threads ==> Stopped(c.s.threads[tid], jti))
             && IsClockedRun(env, cfg, StepAt(env, cfg, c, Step.Revoke(jti), now), after)
    ensures var c := AfterAt(env, cfg, Empty(), before);
            var end := AfterAt(env, cfg, StepAt(env, cfg, c, Step.Revoke(jti), now), after).s;
            tid in end.threads ==> Stopped(end.threads[tid], jti)
  {
    var opens := IssueTimesExist(env);
    ClockedRunRefines(env, cfg, opens, Initial(), Empty(), before);
    var a, c := After(env, Initial(), StepsOf(before)), AfterAt(env, cfg, Empty(), before);
    StepAtRefines(env, cfg, opens, a, c, Step.Revoke(jti), now);
    RevokedInClockedRun(env, cfg, opens, Next(env, a, Step.Revoke(jti)), StepAt(env, cfg, c, Step.Revoke(jti), now), after, jti, tid);
  }
}
