/**
 * Execution as a transition system. Every wait of an execution ends a step, so any number of executions interleave
 * over one ledger, one approval store, one version registry, one revocation list and one audit log.
 */
module Protocol {
  import opened Prelude
  import opened Policy
  import opened Tokens
  import opened Ledgers
  import opened Approvals
  import opened Sessions
  import opened Versions

  datatype Input = Input(
    token: string,
    tool: Tool,
    payload: Payload,
    approvalId: Option<string>,
    requestId: Option<string>,
    traceId: Option<string>,
    sessionId: Option<string>,
    intent: Option<Intent>,
    simulate: bool)

  /** An execution past validation: its input, the claims its token carries, and whether an approval was bound. */
  datatype Call = Call(input: Input, claims: Claims, granted: bool)

  datatype Thread =
    | Checking(call: Call)
    | Cleared(call: Call)
    | Bound(call: Call)
    | Counted(call: Call, count: nat)
    | Consuming(call: Call, ctx: Context)
    | Running(call: Call, ctx: Context)
    | Failing(call: Call, ctx: Context)
    | Failed(call: Call, ctx: Context)
    | Refused(call: Call, ctx: Context)
    | Replayed(call: Call, ctx: Context)
    | Done(decision: Decision, index: nat, outcome: Option<Call>)

  /** An audit event, with the execution it belongs to and, past evaluation, the context it was judged in. */
  datatype Event = Event(tid: nat, decision: Decision, replay: bool, call: Option<Call>, ctx: Option<Context>)

  /** What each token string decodes to under the signing key, the issuer the runtime expects, and its policy engine. */
  datatype Env = Env(tokens: map<string, Claims>, issuer: Option<string>, engine: Engine)

  datatype State = State(
    ledger: Ledger,
    requests: Requests,
    versions: map<string, Versioned>,
    revoked: set<string>,
    audit: seq<Event>,
    sessions: map<string, Session>,
    threads: map<nat, Thread>)

  datatype Step =
    | Begin(tid: nat, input: Input, now: int)
    | CheckRevocation(tid: nat)
    | BindApproval(tid: nat)
    | ReadCount(tid: nat)
    | Decide(tid: nat, hour: int, approvalId: string, now: int)
    | Consume(tid: nat)
    | AdapterOk(tid: nat)
    | AdapterFail(tid: nat)
    | ReleaseReservation(tid: nat)
    | Record(tid: nat)
    | SettleApproval(id: string, verdict: Status, now: int, resolver: Option<string>)
    | Revoke(jti: string)
    | Register(tool: Tool, w: Written)

  function Initial(): State {
    State(Ledger(map[], map[]), map[], map[], {}, [], map[], map[])
  }

  // ---------------------------------------------------------------------- steps

  function Decode(env: Env, token: string): Result<Claims, ValidationError> {
    if token in env.tokens then Success(env.tokens[token]) else Failure(InvalidSignature)
  }

  function At(s: State, tid: nat, th: Thread): State {
    s.(threads := s.threads[tid := th])
  }

  /** Ends an execution: one audit event, and the same decision returned. */
  function Finish(s: State, tid: nat, decision: Decision, replay: bool, call: Option<Call>, ctx: Option<Context>): State {
    s.(audit := s.audit + [Event(tid, decision, replay, call, ctx)],
       threads := s.threads[tid := Done(decision, |s.audit|, call)])
  }

  /** What an execution reports to its session; an execution without a trace id is traced by its request id. */
  function TouchOf(call: Call, phase: Phase, increment: bool): TouchInput
    requires call.input.sessionId.Some?
  {
    TouchInput(call.input.sessionId.value, call.claims.sub, Some(call.claims.jti), Newer(call.input.traceId, call.input.requestId),
               Some(call.claims.tool), phase, call.input.approvalId, increment)
  }

  function TouchSession(s: State, call: Call, phase: Phase, increment: bool): State {
    var id := call.input.sessionId;
    if id.None? || id.value == "" then s
    else s.(sessions := Touched(s.sessions, TouchOf(call, phase, increment)))
  }

  function LimitOf(claims: Claims): Option<int> {
    Limits(claims).maxActions
  }

  function ContextOf(call: Call, count: nat, hour: int): Context {
    Context(call.claims.tool, call.input.payload, count, call.granted, hour, call.input.simulate,
            Normalized(if call.input.intent.Some? then call.input.intent else call.claims.intent))
  }

  /** A token's own constraints, compiled again. */
  function OwnPolicy(env: Env, claims: Claims): Versioned {
    env.engine.recompiled(claims.tool, Limits(claims))
  }

  /** The document the runtime finds for a token: the one on record under its stamp, or its own. */
  function PolicyFor(env: Env, versions: map<string, Versioned>, claims: Claims): Option<Versioned> {
    Resolve(versions, OwnPolicy(env, claims), claims.policyVersionId)
  }

  /** Looking a policy up registers the token's own when it is found to be the one stamped. */
  function Resolving(env: Env, s: State, claims: Claims): State {
    s.(versions := AfterResolve(s.versions, OwnPolicy(env, claims), claims.policyVersionId))
  }

  /** The runtime never goes on from an ALLOW in a dry run. */
  function VerdictOf(e: Evaluation, simulate: bool): Decision {
    if e.decision == Allow && simulate then Simulate else e.decision
  }

  function ReasonOf(e: Evaluation): Reason {
    OrElse(e.reason, ApprovalConstraint)
  }

  predicate Enabled(s: State, step: Step) {
    match step
    case Begin(tid, _, _) => tid !in s.threads
    case CheckRevocation(tid) => tid in s.threads && s.threads[tid].Checking?
    case BindApproval(tid) => tid in s.threads && s.threads[tid].Cleared?
    case ReadCount(tid) => tid in s.threads && s.threads[tid].Bound?
    case Decide(tid, _, approvalId, _) => tid in s.threads && s.threads[tid].Counted? && approvalId !in s.requests
    case Consume(tid) => tid in s.threads && s.threads[tid].Consuming?
    case AdapterOk(tid) => tid in s.threads && s.threads[tid].Running?
    case AdapterFail(tid) => tid in s.threads && s.threads[tid].Running?
    case ReleaseReservation(tid) => tid in s.threads && s.threads[tid].Failing?
    case Record(tid) => tid in s.threads && (s.threads[tid].Refused? || s.threads[tid].Replayed? || s.threads[tid].Failed?)
    case SettleApproval(_, verdict, _, _) => verdict != Pending
    case Revoke(_) => true
    case Register(_, w) => WellWritten(w)
  }

  function DoBegin(env: Env, s: State, tid: nat, input: Input, now: int): State {
    match Validate(Decode(env, input.token), now, env.issuer, Some(input.tool))
    case Failure(_) => Finish(s, tid, Deny, false, None, None)
    case Success(claims) => At(s, tid, Checking(Call(input, claims, false)))
  }

  function DoBind(s: State, tid: nat, call: Call): State {
    var id := call.input.approvalId;
    if id.None? || id.value == "" then At(s, tid, Bound(call))
    else if id.value in s.requests && Covers(s.requests[id.value], call.input.token, call.input.tool, call.input.payload)
    then At(s, tid, Bound(call.(granted := true)))
    else Finish(s, tid, Deny, false, Some(call), None)
  }

  /** Acts on a verdict; the reads before it and the waits after it are steps of their own. */
  function DoDecide(s: State, tid: nat, call: Call, ctx: Context, verdict: Decision, reason: Reason, approvalId: string, now: int): State {
    match verdict
    case Deny => Finish(TouchSession(s, call, Denied, false), tid, Deny, false, Some(call), Some(ctx))
    case RequireApproval =>
      var asked := Finish(TouchSession(s, call, ApprovalRequiredPhase, false), tid, RequireApproval, false, Some(call), Some(ctx));
      asked.(requests := s.requests[approvalId := Approval(
        approvalId, Pending, call.claims.sub, call.claims.tool, call.input.token, call.input.payload,
        reason, |s.audit|, call.claims.jti, now, None, None)])
    case Simulate => Finish(TouchSession(s, call, Simulated, false), tid, Simulate, false, Some(call), Some(ctx))
    case Allow =>
      var approved := if call.granted then TouchSession(s, call, ApprovedPhase, false) else s;
      At(TouchSession(approved, call, Executing, false), tid, Consuming(call, ctx))
  }

  /** Resolves the token's policy, evaluates it and acts on the verdict. */
  function DoEvaluate(env: Env, s: State, tid: nat, call: Call, ctx: Context, approvalId: string, now: int): State {
    match PolicyFor(env, s.versions, call.claims)
    case None => Finish(s, tid, Deny, false, Some(call), None)
    case Some(policy) =>
      var e := env.engine.evaluate(policy.doc, ctx);
      DoDecide(Resolving(env, s, call.claims), tid, call, ctx, VerdictOf(e, ctx.simulate), ReasonOf(e), approvalId, now)
  }

  function DoConsume(s: State, tid: nat, call: Call, ctx: Context): State {
    var (ledger, r) := Reserve(s.ledger, call.claims.jti, LimitOf(call.claims), call.input.requestId);
    var next := if !r.allowed then Refused(call, ctx) else if r.replay then Replayed(call, ctx) else Running(call, ctx);
    At(s.(ledger := ledger), tid, next)
  }

  function DoRecord(s: State, tid: nat, th: Thread): State
    requires th.Refused? || th.Replayed? || th.Failed?
  {
    match th
    case Refused(call, ctx) => Finish(TouchSession(s, call, Denied, false), tid, Deny, false, Some(call), Some(ctx))
    case Replayed(call, ctx) => Finish(TouchSession(s, call, Completed, false), tid, Allow, true, Some(call), Some(ctx))
    case Failed(call, ctx) => Finish(TouchSession(s, call, Phase.Failed, false), tid, Deny, false, Some(call), Some(ctx))
  }

  function Next(env: Env, s: State, step: Step): State
    requires Enabled(s, step)
  {
    match step
    case Begin(tid, input, now) => DoBegin(env, s, tid, input, now)
    case CheckRevocation(tid) =>
      var call := s.threads[tid].call;
      if call.claims.jti in s.revoked then Finish(s, tid, Deny, false, Some(call), None) else At(s, tid, Cleared(call))
    case BindApproval(tid) => DoBind(s, tid, s.threads[tid].call)
    case ReadCount(tid) =>
      var call := s.threads[tid].call; At(s, tid, Counted(call, Count(s.ledger, call.claims.jti)))
    case Decide(tid, hour, approvalId, now) =>
      var call := s.threads[tid].call;
      DoEvaluate(env, s, tid, call, ContextOf(call, s.threads[tid].count, hour), approvalId, now)
    case Consume(tid) => DoConsume(s, tid, s.threads[tid].call, s.threads[tid].ctx)
    case AdapterOk(tid) =>
      var call := s.threads[tid].call;
      Finish(TouchSession(s, call, Completed, true), tid, Allow, false, Some(call), Some(s.threads[tid].ctx))
    case AdapterFail(tid) => At(s, tid, Failing(s.threads[tid].call, s.threads[tid].ctx))
    case ReleaseReservation(tid) =>
      var call := s.threads[tid].call;
      At(s.(ledger := Unreserve(s.ledger, call.claims.jti, call.input.requestId)), tid, Thread.Failed(call, s.threads[tid].ctx))
    case Record(tid) => DoRecord(s, tid, s.threads[tid])
    case SettleApproval(id, verdict, now, resolver) => s.(requests := Resolved(s.requests, id, verdict, now, resolver))
    case Revoke(jti) => s.(revoked := s.revoked + {jti})
    case Register(tool, w) => s.(versions := Registered(s.versions, env.engine.written(tool, w)))
  }

  // ----------------------------------------------------------- what a decision leaves

  /** What an execution looks like once it was decided: on its way to the ledger, or ended with one event. */
  ghost predicate DecidedFrom(before: State, after: State, tid: nat, call: Call, ctx: Context, verdict: Option<Decision>) {
    && after.ledger == before.ledger && after.revoked == before.revoked
    && if verdict == Some(Allow) then
         after.threads == before.threads[tid := Consuming(call, ctx)] && after.audit == before.audit
       else
         var decision := if verdict.Some? then verdict.value else Deny;
         && after.threads == before.threads[tid := Done(decision, |before.audit|, Some(call))]
         && after.audit == before.audit + [Event(tid, decision, false, Some(call), if verdict.Some? then Some(ctx) else None)]
  }

  lemma VerdictShape(s: State, tid: nat, call: Call, ctx: Context, verdict: Decision, reason: Reason, id: string, now: int)
    ensures DecidedFrom(s, DoDecide(s, tid, call, ctx, verdict, reason, id, now), tid, call, ctx, Some(verdict))
  {
  }

  /** The verdict on a call in a context, if a policy is found for its token. */
  function FoundVerdict(env: Env, versions: map<string, Versioned>, claims: Claims, ctx: Context): Option<Decision> {
    match PolicyFor(env, versions, claims)
    case None => None
    case Some(policy) => Some(VerdictOf(env.engine.evaluate(policy.doc, ctx), ctx.simulate))
  }

  lemma EvaluateShape(env: Env, s: State, tid: nat, call: Call, ctx: Context, id: string, now: int)
    ensures DecidedFrom(s, DoEvaluate(env, s, tid, call, ctx, id, now), tid, call, ctx,
                        FoundVerdict(env, s.versions, call.claims, ctx))
  {
    var policy := PolicyFor(env, s.versions, call.claims);
    if policy.Some? {
      var e := env.engine.evaluate(policy.value.doc, ctx);
      VerdictShape(Resolving(env, s, call.claims), tid, call, ctx, VerdictOf(e, ctx.simulate), ReasonOf(e), id, now);
    }
  }

  // ------------------------------------------------------------------------ runs

  predicate IsRun(env: Env, s: State, steps: seq<Step>)
    decreases |steps|
  {
    steps == [] || (Enabled(s, steps[0]) && IsRun(env, Next(env, s, steps[0]), steps[1..]))
  }

  function After(env: Env, s: State, steps: seq<Step>): State
    requires IsRun(env, s, steps)
    decreases |steps|
  {
    if steps == [] then s else After(env, Next(env, s, steps[0]), steps[1..])
  }

  /** Tokens are minted under ids of their own. */
  predicate UniqueIds(env: Env) {
    forall a, b :: a in env.tokens && b in env.tokens && env.tokens[a].jti == env.tokens[b].jti ==>
      env.tokens[a] == env.tokens[b]
  }

  // ------------------------------------------------------------------- counting

  /** What executions are counted by. */
  datatype Tag = ForToken(jti: string) | ForRequest(jti: string, request: string) | ForSession(session: string)

  predicate Tagged(call: Call, tag: Tag) {
    match tag
    case ForToken(jti) => call.claims.jti == jti
    case ForRequest(jti, request) => call.claims.jti == jti && call.input.requestId == Some(request)
    case ForSession(session) => call.input.sessionId == Some(session)
  }

  predicate Holds(th: Thread, tag: Tag) {
    (th.Running? || th.Failing?) && Tagged(th.call, tag)
  }

  /** The executions in flight that hold a reservation. */
  function Holders(threads: map<nat, Thread>, tag: Tag): set<nat> {
    set t | t in threads && Holds(threads[t], tag)
  }

  predicate Spends(e: Event, tag: Tag) {
    e.decision == Allow && !e.replay && e.call.Some? && Tagged(e.call.value, tag)
  }

  /** The completed actions on record, replays not counted. */
  function Spent(audit: seq<Event>, tag: Tag): nat {
    if audit == [] then 0
    else Spent(audit[..|audit| - 1], tag) + if Spends(audit[|audit| - 1], tag) then 1 else 0
  }

  lemma SpentAppend(audit: seq<Event>, e: Event, tag: Tag)
    ensures Spent(audit + [e], tag) == Spent(audit, tag) + if Spends(e, tag) then 1 else 0
  {
    assert (audit + [e])[..|audit|] == audit;
  }

  lemma HoldersUpdate(threads: map<nat, Thread>, tid: nat, th: Thread, tag: Tag)
    ensures var before := if tid in threads && Holds(threads[tid], tag) then 1 else 0;
            var after := if Holds(th, tag) then 1 else 0;
            |Holders(threads[tid := th], tag)| == |Holders(threads, tag)| - before + after
  {
    var rest := Holders(threads, tag) - {tid};
    assert Holders(threads[tid := th], tag) == if Holds(th, tag) then rest + {tid} else rest;
    assert tid in threads && Holds(threads[tid], tag) ==> Holders(threads, tag) == rest + {tid};
    assert !(tid in threads && Holds(threads[tid], tag)) ==> Holders(threads, tag) == rest;
  }

  /** Reservations in flight plus actions completed. */
  function Used(s: State, tag: Tag): nat {
    |Holders(s.threads, tag)| + Spent(s.audit, tag)
  }
}
