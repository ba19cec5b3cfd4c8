/** One undisturbed execution: the paths it takes through the protocol, and the outcome its state calls for. */
module Outcomes {
  import opened Prelude
  import opened Policy
  import opened Compiler
  import opened Tokens
  import opened Ledgers
  import opened Approvals
  import opened Versions
  import opened Protocol
  import opened ProtocolQuota
  import opened ProtocolSafety
  import opened ProtocolPolicy

  /** What a caller gets back, with which late stage decided it. */
  datatype Outcome = Outcome(decision: Decision, refusedByLedger: bool, replayed: bool, adapterFailed: bool)

  /** What the world supplies to one execution. */
  datatype World = World(now: int, hour: int, adapterSucceeds: bool, newApprovalId: string)

  /** A run written out: the steps and every state on the way. */
  datatype Path = Path(states: seq<State>, steps: seq<Step>)

  ghost predicate Leads(env: Env, s: State, p: Path, t: State) {
    && |p.states| == |p.steps| + 1 && p.states[0] == s && p.states[|p.steps|] == t
    && forall i {:trigger p.steps[i]} :: 0 <= i < |p.steps| ==>
         Enabled(p.states[i], p.steps[i]) && p.states[i + 1] == Next(env, p.states[i], p.steps[i])
  }

  function One(s: State, step: Step, t: State): Path {
    Path([s, t], [step])
  }

  function Join(a: Path, b: Path): Path {
    Path(a.states + if b.states == [] then [] else b.states[1..], a.steps + b.steps)
  }

  lemma OneLeads(env: Env, s: State, step: Step)
    requires Enabled(s, step)
    ensures Leads(env, s, One(s, step, Next(env, s, step)), Next(env, s, step))
  {
  }

  lemma JoinLeads(env: Env, s: State, a: Path, t: State, b: Path, u: State)
    requires Leads(env, s, a, t) && Leads(env, t, b, u)
    ensures Leads(env, s, Join(a, b), u)
  {
    var p := Join(a, b);
    forall i | 0 <= i < |p.steps|
      ensures Enabled(p.states[i], p.steps[i]) && p.states[i + 1] == Next(env, p.states[i], p.steps[i])
    {
      if i < |a.steps| {
        assert p.steps[i] == a.steps[i] && p.states[i] == a.states[i];
      } else {
        assert p.steps[i] == b.steps[i - |a.steps|] && p.states[i] == b.states[i - |a.steps|];
      }
    }
  }

  lemma ThreeSteps(env: Env, s: State, a: Step, t: State, b: Step, u: State, c: Step, v: State) returns (p: Path)
    requires Enabled(s, a) && t == Next(env, s, a) && Enabled(t, b) && u == Next(env, t, b)
    requires Enabled(u, c) && v == Next(env, u, c)
    ensures Leads(env, s, p, v)
  {
    OneLeads(env, s, a);
    OneLeads(env, t, b);
    OneLeads(env, u, c);
    JoinLeads(env, s, One(s, a, t), t, One(t, b, u), u);
    p := Join(One(s, a, t), One(t, b, u));
    JoinLeads(env, s, p, u, One(u, c, v), v);
    p := Join(p, One(u, c, v));
  }

  /** A path is a run of the protocol. */
  lemma {:induction false} PathIsRun(env: Env, s: State, p: Path, t: State)
    requires Leads(env, s, p, t)
    ensures IsRun(env, s, p.steps) && After(env, s, p.steps) == t
    decreases |p.steps|
  {
    if p.steps != [] {
      assert Enabled(p.states[0], p.steps[0]) && p.states[1] == Next(env, p.states[0], p.steps[0]);
      var rest := Path(p.states[1..], p.steps[1..]);
      forall i | 0 <= i < |rest.steps|
        ensures Enabled(rest.states[i], rest.steps[i]) && rest.states[i + 1] == Next(env, rest.states[i], rest.steps[i])
      {
        assert rest.steps[i] == p.steps[i + 1] && rest.states[i] == p.states[i + 1];
      }
      PathIsRun(env, p.states[1], rest, t);
    }
  }

  /** The two ledgers read alike for every token and request. */
  ghost predicate SameLedger(l: Ledger, m: Ledger) {
    forall jti :: Count(l, jti) == Count(m, jti) && RequestsOf(l, jti) == RequestsOf(m, jti)
  }

  /** Unless a new action completed, the ledger is left as it was found. */
  lemma HeldThenLeft(l: Ledger, jti: string, limit: Option<int>, request: Option<string>, consumed: Consumed, r: Outcome, l': Ledger)
    requires consumed == Reserve(l, jti, limit, request).1
    requires l' == if r.adapterFailed then Unreserve(Reserve(l, jti, limit, request).0, jti, request)
                   else Reserve(l, jti, limit, request).0
    requires r.decision == Allow <==> consumed.allowed && !r.adapterFailed
    requires r.replayed <==> consumed.allowed && consumed.replay
    requires r.adapterFailed ==> consumed.allowed && !consumed.replay
    ensures r.decision != Allow || r.replayed ==> SameLedger(l, l')
  {
    if r.adapterFailed { ReleaseUndoesConsume(l, jti, limit, request); }
  }

  /** Where an execution that ended leaves its thread and the log. */
  ghost predicate EndedFrom(before: State, after: State, tid: nat, decision: Decision) {
    && |after.audit| == |before.audit| + 1 && after.audit[..|before.audit|] == before.audit
    && after.audit[|before.audit|].decision == decision
    && (exists outcome :: after.threads == before.threads[tid := Done(decision, |before.audit|, outcome)])
  }

  /** A whole execution: a path of the protocol that ends the thread with one event and settles the ledger. */
  ghost predicate Performed(env: Env, before: State, after: State, tid: nat, r: Outcome, p: Path) {
    && Leads(env, before, p, after) && EndedFrom(before, after, tid, r.decision)
    && (r.decision != Allow || r.replayed ==> SameLedger(before.ledger, after.ledger))
  }

  /** One step that moves the thread on and leaves ledger and log. */
  ghost predicate MovedOn(env: Env, before: State, step: Step, after: State, tid: nat, th: Thread) {
    && Leads(env, before, One(before, step, after), after)
    && after.ledger == before.ledger && after.audit == before.audit && after.threads == before.threads[tid := th]
  }

  /** One step that ends the thread with a DENY. */
  ghost predicate TurnedAway(env: Env, before: State, step: Step, after: State, tid: nat, call: Option<Call>) {
    && Leads(env, before, One(before, step, after), after) && after.ledger == before.ledger
    && after.threads == before.threads[tid := Done(Deny, |before.audit|, call)]
    && after.audit == before.audit + [Event(tid, Deny, false, call, None)]
  }

  lemma TurnedAwayIsPerformed(env: Env, before: State, step: Step, after: State, tid: nat, call: Option<Call>)
    requires TurnedAway(env, before, step, after, tid, call)
    ensures Performed(env, before, after, tid, Refusal(Deny), One(before, step, after))
  {
  }

  lemma StillEnded(before: State, mid: State, after: State, tid: nat, th: Thread, decision: Decision)
    requires mid.audit == before.audit && mid.threads == before.threads[tid := th] && EndedFrom(mid, after, tid, decision)
    ensures EndedFrom(before, after, tid, decision)
  {
    var outcome :| after.threads == mid.threads[tid := Done(decision, |mid.audit|, outcome)];
    assert after.threads == before.threads[tid := Done(decision, |before.audit|, outcome)];
  }

  lemma MoveThenPerformed(env: Env, before: State, step: Step, mid: State, after: State, tid: nat, th: Thread, r: Outcome, p: Path)
    requires MovedOn(env, before, step, mid, tid, th) && Performed(env, mid, after, tid, r, p)
    ensures Performed(env, before, after, tid, r, Join(One(before, step, mid), p))
  {
    JoinLeads(env, before, One(before, step, mid), mid, p, after);
    StillEnded(before, mid, after, tid, th, r.decision);
  }

  /** A whole execution is a run of the protocol and keeps what every run keeps. */
  lemma PerformedKeepsInvariants(env: Env, before: State, after: State, tid: nat, r: Outcome, p: Path)
    requires Performed(env, before, after, tid, r, p) && UniqueIds(env)
    requires QuotaInvariant(env, before) && SafetyInvariant(env, before)
    ensures IsRun(env, before, p.steps) && After(env, before, p.steps) == after
    ensures QuotaInvariant(env, after) && SafetyInvariant(env, after)
  {
    PathIsRun(env, before, p, after);
    RunKeepsQuota(env, before, p.steps);
    RunKeepsSafety(env, before, p.steps);
  }

  lemma PerformedStaysQuiet(before: State, after: State, tid: nat, decision: Decision, nextTid: nat)
    requires EndedFrom(before, after, tid, decision) && Quiet(before) && tid < nextTid
    requires forall t :: t in before.threads ==> t < nextTid
    ensures Quiet(after) && forall t :: t in after.threads ==> t < nextTid
  {
    var outcome :| after.threads == before.threads[tid := Done(decision, |before.audit|, outcome)];
  }

  function DecideStep(tid: nat, w: World): Step {
    Step.Decide(tid, w.hour, w.newApprovalId, w.now)
  }

  // ------------------------------------------- what one undisturbed call returns

  function Refusal(decision: Decision): Outcome {
    Outcome(decision, false, false, false)
  }

  /** From the consume call on. */
  function ActOutcome(l: Ledger, call: Call, w: World): Outcome {
    var consumed := Reserve(l, call.claims.jti, LimitOf(call.claims), call.input.requestId).1;
    if !consumed.allowed then Outcome(Deny, true, false, false)
    else if consumed.replay then Outcome(Allow, false, true, false)
    else if w.adapterSucceeds then Outcome(Allow, false, false, false)
    else Outcome(Deny, false, false, true)
  }

  /** Where the outcome of an execution is read from. */
  datatype Facts = Facts(env: Env, ledger: Ledger, requests: Requests, versions: map<string, Versioned>, revoked: set<string>)

  function ContextFor(f: Facts, call: Call, w: World): Context {
    ContextOf(call, Count(f.ledger, call.claims.jti), w.hour)
  }

  function VerdictFor(f: Facts, call: Call, w: World): Option<Decision> {
    FoundVerdict(f.env, f.versions, call.claims, ContextFor(f, call, w))
  }

  function OutcomeAfter(verdict: Option<Decision>, l: Ledger, call: Call, w: World): Outcome {
    match verdict
    case None => Refusal(Deny)
    case Some(Allow) => ActOutcome(l, call, w)
    case Some(decision) => Refusal(decision)
  }

  function ClaimsOutcome(f: Facts, call: Call, w: World): Outcome {
    OutcomeAfter(VerdictFor(f, call, w), f.ledger, call, w)
  }

  /** The approval a call names, once it is found to cover it, or the call as it is when it names none. */
  function BoundCall(requests: Requests, bare: Call): Option<Call> {
    var id := bare.input.approvalId;
    if id.None? || id.value == "" then Some(bare)
    else if id.value in requests && Covers(requests[id.value], bare.input.token, bare.input.tool, bare.input.payload)
    then Some(bare.(granted := true))
    else None
  }

  function BindOutcome(f: Facts, bare: Call, w: World): Outcome {
    match BoundCall(f.requests, bare)
    case None => Refusal(Deny)
    case Some(call) => ClaimsOutcome(f, call, w)
  }

  function AdmittedOutcome(f: Facts, bare: Call, w: World): Outcome {
    if bare.claims.jti in f.revoked then Refusal(Deny) else BindOutcome(f, bare, w)
  }

  function Validated(env: Env, input: Input, now: int): Option<Call> {
    match Validate(Decode(env, input.token), now, env.issuer, Some(input.tool))
    case Failure(_) => None
    case Success(claims) => Some(Call(input, claims, false))
  }

  function OutcomeOf(f: Facts, input: Input, w: World): Outcome {
    match Validated(f.env, input, w.now)
    case None => Refusal(Deny)
    case Some(bare) => AdmittedOutcome(f, bare, w)
  }

  /** The token is live, unrevoked and meant for the tool, and its approval, if one is named, covers the call. */
  predicate Admissible(f: Facts, input: Input, w: World) {
    && input.token in f.env.tokens
    && var claims := f.env.tokens[input.token];
       && Unexpired(claims, w.now, CLOCK_TOLERANCE_SEC) && ValidClaims(claims)
       && (f.env.issuer.Some? ==> claims.iss == f.env.issuer.value) && claims.tool == input.tool
       && claims.jti !in f.revoked && BoundCall(f.requests, Call(input, claims, false)).Some?
  }

  /** The policy engine works as the policy modules say, and the registry holds no foreign policy under a token's stamp. */
  ghost predicate Sound(f: Facts, hash: Text -> string) {
    Implements(f.env.engine, hash) && HarmlessRegistry(f.env, f.versions)
  }

  /** A bound call is allowed on exactly when a policy is found for it and the token's own constraints permit it. */
  lemma VerdictAllowsExactly(f: Facts, hash: Text -> string, call: Call, w: World)
    requires Sound(f, hash) && Genuine(f.env, call)
    ensures VerdictFor(f, call, w) == Some(Allow) <==>
            && PolicyFor(f.env, f.versions, call.claims).Some? && !call.input.simulate
            && Permits(call.claims.tool, Limits(call.claims), ContextFor(f, call, w))
  {
    var ctx := ContextFor(f, call, w);
    FoundPolicyIsOwn(f.env, f.versions, call, ctx);
    if !ctx.simulate { OwnPolicyPermits(f.env, hash, call.claims, ctx); }
  }

  /** The call an admissible input comes to. */
  function CallOf(f: Facts, input: Input, w: World): Call
    requires Admissible(f, input, w)
  {
    BoundCall(f.requests, Call(input, f.env.tokens[input.token], false)).value
  }

  lemma OutcomeIsAdmitted(f: Facts, input: Input, w: World)
    ensures OutcomeOf(f, input, w) == if Admissible(f, input, w) then ClaimsOutcome(f, CallOf(f, input, w), w) else Refusal(Deny)
    ensures Admissible(f, input, w) ==> Genuine(f.env, CallOf(f, input, w)) && CallOf(f, input, w).input == input
  {
  }

  /** The ledger refuses only what the policy does not count: the policy's own look at the count comes first. */
  lemma LedgerRefusesOnlyTheUncounted(f: Facts, hash: Text -> string, input: Input, w: World)
    requires Sound(f, hash)
    ensures OutcomeOf(f, input, w).refusedByLedger ==>
            input.token in f.env.tokens && LimitOf(f.env.tokens[input.token]).Some?
            && LimitOf(f.env.tokens[input.token]).value >= MAX_SAFE_INTEGER
  {
    OutcomeIsAdmitted(f, input, w);
    if Admissible(f, input, w) { VerdictAllowsExactly(f, hash, CallOf(f, input, w), w); }
  }

  /** A repeated request is answered as a replay exactly when it would be allowed as a new one and the ledger knows it. */
  lemma ReplaysExactlyWhen(f: Facts, hash: Text -> string, input: Input, w: World)
    requires Sound(f, hash)
    ensures OutcomeOf(f, input, w).replayed <==>
            && Admissible(f, input, w) && !input.simulate
            && var call := CallOf(f, input, w);
               && PolicyFor(f.env, f.versions, call.claims).Some?
               && Permits(call.claims.tool, Limits(call.claims), ContextFor(f, call, w))
               && Replays(f.ledger, call.claims.jti, input.requestId)
  {
    OutcomeIsAdmitted(f, input, w);
    if Admissible(f, input, w) { VerdictAllowsExactly(f, hash, CallOf(f, input, w), w); }
  }

  /** The call would be allowed if its token had no action limit. */
  predicate AllowedButForTheCount(f: Facts, input: Input, w: World) {
    && Admissible(f, input, w) && !input.simulate
    && var call := CallOf(f, input, w);
       && PolicyFor(f.env, f.versions, call.claims).Some?
       && Permits(call.claims.tool, Limits(call.claims).(maxActions := None), ContextFor(f, call, w))
  }

  /** The policy counts the token's actions and finds the limit reached. */
  predicate Full(l: Ledger, claims: Claims) {
    && LimitOf(claims).Some? && LimitOf(claims).value < MAX_SAFE_INTEGER
    && Count(l, claims.jti) >= LimitOf(claims).value
  }

  /**
   * A request the ledger knows, allowed but for the count, is answered as a replay exactly when the token is not full: the
   * policy looks at the count before the ledger looks at the request.
   */
  lemma RepeatsAreReplayedExactly(f: Facts, hash: Text -> string, input: Input, w: World)
    requires Sound(f, hash) && AllowedButForTheCount(f, input, w)
    requires Replays(f.ledger, f.env.tokens[input.token].jti, input.requestId)
    ensures OutcomeOf(f, input, w).replayed <==> !Full(f.ledger, f.env.tokens[input.token])
  {
    ReplaysExactlyWhen(f, hash, input, w);
  }

  /** A full token is refused everything, repeated requests included. */
  lemma FullTokensRefuseReplays(f: Facts, hash: Text -> string, input: Input, w: World)
    requires Sound(f, hash) && input.token in f.env.tokens && Full(f.ledger, f.env.tokens[input.token])
    ensures OutcomeOf(f, input, w).decision != Allow
  {
    OutcomeIsAdmitted(f, input, w);
    if Admissible(f, input, w) { VerdictAllowsExactly(f, hash, CallOf(f, input, w), w); }
  }

  /**
   * A new action is performed exactly when token, revocation list, approval, registry, constraints, ledger and adapter all
   * let it, in whatever order they are asked.
   */
  lemma ActsExactlyWhen(f: Facts, hash: Text -> string, input: Input, w: World)
    requires Sound(f, hash)
    ensures var r := OutcomeOf(f, input, w);
            r.decision == Allow && !r.replayed <==>
            && Admissible(f, input, w) && !input.simulate && w.adapterSucceeds
            && var call := CallOf(f, input, w);
               && PolicyFor(f.env, f.versions, call.claims).Some?
               && Permits(call.claims.tool, Limits(call.claims), ContextFor(f, call, w))
               && !Replays(f.ledger, call.claims.jti, input.requestId)
               && (LimitOf(call.claims).Some? ==> Count(f.ledger, call.claims.jti) < LimitOf(call.claims).value)
  {
    OutcomeIsAdmitted(f, input, w);
    if Admissible(f, input, w) { VerdictAllowsExactly(f, hash, CallOf(f, input, w), w); }
  }
}
