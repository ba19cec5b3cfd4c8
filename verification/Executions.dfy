/** Undisturbed executions step by step, as runs of the protocol from any state. */
module Executions {
  import opened Prelude
  import opened Policy
  import opened Tokens
  import opened Ledgers
  import opened Protocol
  import opened Outcomes

  /** What the rest of the state gives one execution to look at. */
  function FactsIn(env: Env, s: State): Facts {
    Facts(env, s.ledger, s.requests, s.versions, s.revoked)
  }

  lemma Overwritten(s: State, tid: nat, a: Thread, b: Thread)
    ensures Protocol.At(Protocol.At(s, tid, a), tid, b) == Protocol.At(s, tid, b)
  {
    assert s.threads[tid := a][tid := b] == s.threads[tid := b];
  }

  lemma ExtendPath(env: Env, s: State, p: Path, t: State, step: Step) returns (q: Path)
    requires Leads(env, s, p, t) && Enabled(t, step)
    ensures Leads(env, s, q, Next(env, t, step))
  {
    OneLeads(env, t, step);
    JoinLeads(env, s, p, t, One(t, step, Next(env, t, step)), Next(env, t, step));
    q := Join(p, One(t, step, Next(env, t, step)));
  }

  /** The token is live, unrevoked and meant for the tool. */
  predicate TokenAdmits(env: Env, s: State, input: Input, now: int) {
    && input.token in env.tokens
    && var claims := env.tokens[input.token];
       && Unexpired(claims, now, CLOCK_TOLERANCE_SEC) && ValidClaims(claims)
       && (env.issuer.Some? ==> claims.iss == env.issuer.value) && claims.tool == input.tool && claims.jti !in s.revoked
  }

  /** Such a call gets as far as looking its approval up. */
  lemma ReachesBinding(env: Env, s: State, tid: nat, input: Input, w: World) returns (p: Path)
    requires tid !in s.threads && TokenAdmits(env, s, input, w.now)
    ensures Leads(env, s, p, Protocol.At(s, tid, Cleared(Call(input, env.tokens[input.token], false))))
  {
    var bare := Call(input, env.tokens[input.token], false);
    OneLeads(env, s, Begin(tid, input, w.now));
    p := One(s, Begin(tid, input, w.now), Protocol.At(s, tid, Checking(bare)));
    p := ExtendPath(env, s, p, Protocol.At(s, tid, Checking(bare)), CheckRevocation(tid));
    Overwritten(s, tid, Checking(bare), Cleared(bare));
  }

  /** An approval that does not cover the call ends it in one DENY event. */
  lemma UncoveredIsDenied(env: Env, s: State, tid: nat, input: Input, w: World) returns (p: Path, t: State)
    requires tid !in s.threads && TokenAdmits(env, s, input, w.now)
    requires BoundCall(s.requests, Call(input, env.tokens[input.token], false)).None?
    ensures Leads(env, s, p, t) && t.ledger == s.ledger
    ensures t.audit == s.audit + [Event(tid, Deny, false, Some(Call(input, env.tokens[input.token], false)), None)]
  {
    var bare := Call(input, env.tokens[input.token], false);
    p := ReachesBinding(env, s, tid, input, w);
    t := Next(env, Protocol.At(s, tid, Cleared(bare)), BindApproval(tid));
    p := ExtendPath(env, s, p, Protocol.At(s, tid, Cleared(bare)), BindApproval(tid));
  }

  /** An admissible call gets as far as reading the count. */
  lemma ReachesCount(env: Env, s: State, tid: nat, input: Input, w: World) returns (p: Path)
    requires tid !in s.threads && Admissible(FactsIn(env, s), input, w)
    ensures var call := CallOf(FactsIn(env, s), input, w);
            Leads(env, s, p, Protocol.At(s, tid, Counted(call, Count(s.ledger, call.claims.jti))))
  {
    var call := CallOf(FactsIn(env, s), input, w);
    var bare := Call(input, env.tokens[input.token], false);
    var count := Count(s.ledger, call.claims.jti);
    p := ReachesBinding(env, s, tid, input, w);
    p := ExtendPath(env, s, p, Protocol.At(s, tid, Cleared(bare)), BindApproval(tid));
    Overwritten(s, tid, Cleared(bare), Bound(call));
    p := ExtendPath(env, s, p, Protocol.At(s, tid, Bound(call)), ReadCount(tid));
    Overwritten(s, tid, Bound(call), Counted(call, count));
  }

  /** Reading the count again does not change what the decision is read from. */
  lemma DecidesAsRead(env: Env, s: State, tid: nat, input: Input, w: World)
    requires tid !in s.threads && Admissible(FactsIn(env, s), input, w) && w.newApprovalId !in s.requests
    ensures var f := FactsIn(env, s); var call := CallOf(f, input, w);
            var counted := Protocol.At(s, tid, Counted(call, Count(s.ledger, call.claims.jti)));
            && Enabled(counted, DecideStep(tid, w))
            && DecidedFrom(counted, Next(env, counted, DecideStep(tid, w)), tid, call, ContextFor(f, call, w), VerdictFor(f, call, w))
  {
    var f := FactsIn(env, s);
    var call := CallOf(f, input, w);
    var counted := Protocol.At(s, tid, Counted(call, Count(s.ledger, call.claims.jti)));
    EvaluateShape(env, counted, tid, call, ContextFor(f, call, w), w.newApprovalId, w.now);
  }

  lemma AllowKeepsRequests(env: Env, s: State, tid: nat, call: Call, ctx: Context, id: string, now: int)
    ensures FoundVerdict(env, s.versions, call.claims, ctx) == Some(Allow) ==>
              DoEvaluate(env, s, tid, call, ctx, id, now).requests == s.requests
  {
  }

  /** How far an undisturbed call goes by its verdict. */
  lemma ReachesVerdict(env: Env, s: State, tid: nat, input: Input, w: World) returns (p: Path, t: State)
    requires tid !in s.threads && Admissible(FactsIn(env, s), input, w) && w.newApprovalId !in s.requests
    ensures var f := FactsIn(env, s); var call := CallOf(f, input, w);
            && Leads(env, s, p, t) && DecidedFrom(s, t, tid, call, ContextFor(f, call, w), VerdictFor(f, call, w))
            && (VerdictFor(f, call, w) == Some(Allow) ==> t.requests == s.requests)
  {
    var call := CallOf(FactsIn(env, s), input, w);
    var counted := Protocol.At(s, tid, Counted(call, Count(s.ledger, call.claims.jti)));
    p := ReachesCount(env, s, tid, input, w);
    DecidesAsRead(env, s, tid, input, w);
    p := ExtendPath(env, s, p, counted, DecideStep(tid, w));
    t := Next(env, counted, DecideStep(tid, w));
    AllowKeepsRequests(env, counted, tid, call, ContextFor(FactsIn(env, s), call, w), w.newApprovalId, w.now);
    assert counted.threads[tid := t.threads[tid]] == s.threads[tid := t.threads[tid]];
  }

  /** A reservation granted and an adapter that succeeds complete the action. */
  lemma Completes(env: Env, s: State, tid: nat, call: Call, ctx: Context) returns (p: Path, t: State)
    requires tid in s.threads && s.threads[tid] == Consuming(call, ctx)
    requires var r := Reserve(s.ledger, call.claims.jti, LimitOf(call.claims), call.input.requestId).1; r.allowed && !r.replay
    ensures Leads(env, s, p, t)
    ensures t.ledger == Reserve(s.ledger, call.claims.jti, LimitOf(call.claims), call.input.requestId).0
    ensures t.threads == s.threads[tid := Done(Allow, |s.audit|, Some(call))]
    ensures t.revoked == s.revoked && t.requests == s.requests
    ensures t.audit == s.audit + [Event(tid, Allow, false, Some(call), Some(ctx))]
  {
    OneLeads(env, s, Consume(tid));
    var held := Next(env, s, Consume(tid));
    p := ExtendPath(env, s, One(s, Consume(tid), held), held, AdapterOk(tid));
    t := Next(env, held, AdapterOk(tid));
  }

  /** The first execution: one completed action, the request known, nothing else on the way. */
  lemma FirstCompletes(env: Env, s: State, tid: nat, input: Input, w: World) returns (p: Path, t: State)
    requires tid !in s.threads && Admissible(FactsIn(env, s), input, w) && w.newApprovalId !in s.requests
    requires w.adapterSucceeds
             && OutcomeOf(FactsIn(env, s), input, w).decision == Allow && !OutcomeOf(FactsIn(env, s), input, w).replayed
    ensures var f := FactsIn(env, s); var call := CallOf(f, input, w);
            && Leads(env, s, p, t) && t.revoked == s.revoked && t.requests == s.requests
            && t.threads == s.threads[tid := Done(Allow, |s.audit|, Some(call))]
            && t.audit == s.audit + [Event(tid, Allow, false, Some(call), Some(ContextFor(f, call, w)))]
            && Count(t.ledger, call.claims.jti) == Count(s.ledger, call.claims.jti) + 1
            && (Tracked(input.requestId) ==> Replays(t.ledger, call.claims.jti, input.requestId))
  {
    var f := FactsIn(env, s);
    OutcomeIsAdmitted(f, input, w);
    var call, ctx := CallOf(f, input, w), ContextFor(f, CallOf(f, input, w), w);
    var mid, q;
    p, mid := ReachesVerdict(env, s, tid, input, w);
    assert VerdictFor(f, call, w) == Some(Allow);
    q, t := Completes(env, mid, tid, call, ctx);
    JoinLeads(env, s, p, mid, q, t);
    p := Join(p, q);
  }
}
