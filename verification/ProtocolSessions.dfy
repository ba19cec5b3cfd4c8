/** What a session tells about the executions that named it. */
module ProtocolSessions {
  import opened Prelude
  import opened Policy
  import opened Sessions
  import opened Protocol
  import opened ProtocolSafety

  predicate InSession(call: Call) {
    call.input.sessionId.Some? && call.input.sessionId.value != ""
  }

  /** The session shows this execution last: its phase, its agent, token and tool, and its trace and approval if it has any. */
  predicate Shows(s: State, call: Call, phases: set<Phase>) {
    && call.input.sessionId.Some? && call.input.sessionId.value in s.sessions
    && var session := s.sessions[call.input.sessionId.value];
       && session.lastPhase in phases && session.agentId == call.claims.sub
       && session.jti == Some(call.claims.jti) && session.tool == Some(call.claims.tool)
       && (call.input.traceId.Some? ==> session.traceId == call.input.traceId)
       && (call.input.traceId.None? && call.input.requestId.Some? ==> session.traceId == call.input.requestId)
       && (call.input.approvalId.Some? && call.input.approvalId.value != "" ==> call.input.approvalId.value in session.approvalIds)
  }

  /** The phases an execution can end in, by its decision. */
  function EndPhases(decision: Decision): set<Phase> {
    match decision
    case Allow => {Completed}
    case Deny => {Denied, Phase.Failed}
    case RequireApproval => {ApprovalRequiredPhase}
    case Simulate => {Simulated}
  }

  lemma TouchShows(s: State, call: Call, phase: Phase, increment: bool)
    requires InSession(call)
    ensures Shows(TouchSession(s, call, phase, increment), call, {phase})
    ensures var id := call.input.sessionId.value;
            Actions(TouchSession(s, call, phase, increment).sessions, id) == Actions(s.sessions, id) + if increment then 1 else 0
    ensures forall other :: other != call.input.sessionId.value ==>
              (other in s.sessions <==> other in TouchSession(s, call, phase, increment).sessions)
              && (other in s.sessions ==> TouchSession(s, call, phase, increment).sessions[other] == s.sessions[other])
  {
  }

  /** An execution let past the policy is shown as executing. */
  lemma DecidedShows(s: State, tid: nat, call: Call, ctx: Context, verdict: Decision, reason: Reason, id: string, now: int)
    requires InSession(call)
    ensures Shows(DoDecide(s, tid, call, ctx, verdict, reason, id, now), call,
                  if verdict == Allow then {Executing} else EndPhases(verdict))
  {
    match verdict
    case Allow =>
      var approved := if call.granted then TouchSession(s, call, ApprovedPhase, false) else s;
      TouchShows(approved, call, Executing, false);
    case Deny => TouchShows(s, call, Denied, false);
    case RequireApproval => TouchShows(s, call, ApprovalRequiredPhase, false);
    case Simulate => TouchShows(s, call, Simulated, false);
  }

  lemma EvaluatedShows(env: Env, s: State, tid: nat, call: Call, ctx: Context, id: string, now: int)
    requires InSession(call) && FoundVerdict(env, s.versions, call.claims, ctx).Some?
    ensures var verdict := FoundVerdict(env, s.versions, call.claims, ctx).value;
            Shows(DoEvaluate(env, s, tid, call, ctx, id, now), call, if verdict == Allow then {Executing} else EndPhases(verdict))
  {
    var e := env.engine.evaluate(PolicyFor(env, s.versions, call.claims).value.doc, ctx);
    DecidedShows(Resolving(env, s, call.claims), tid, call, ctx, VerdictOf(e, ctx.simulate), ReasonOf(e), id, now);
  }

  lemma RecordedShows(s: State, tid: nat, call: Call, th: Thread)
    requires InSession(call) && (th.Refused? || th.Replayed? || th.Failed?) && th.call == call
    ensures var phase := if th.Refused? then Denied else if th.Replayed? then Completed else Phase.Failed;
            Shows(DoRecord(s, tid, th), call, {phase})
  {
    TouchShows(s, call, if th.Refused? then Denied else if th.Replayed? then Completed else Phase.Failed, false);
  }

  /** If the step put an event of a judged execution on record, the session it names shows how it ended. */
  predicate TellsTheEnd(s: State, s': State) {
    |s'.audit| > |s.audit| ==>
      var e := s'.audit[|s.audit|];
      e.ctx.Some? && e.call.Some? && InSession(e.call.value) ==> Shows(s', e.call.value, EndPhases(e.decision))
  }

  lemma EvaluatedTells(env: Env, s: State, tid: nat, call: Call, ctx: Context, id: string, now: int)
    ensures TellsTheEnd(s, DoEvaluate(env, s, tid, call, ctx, id, now))
  {
    EvaluateShape(env, s, tid, call, ctx, id, now);
    if InSession(call) && FoundVerdict(env, s.versions, call.claims, ctx).Some? {
      EvaluatedShows(env, s, tid, call, ctx, id, now);
    }
  }

  lemma RecordedTells(s: State, tid: nat)
    requires Enabled(s, Record(tid))
    ensures TellsTheEnd(s, DoRecord(s, tid, s.threads[tid]))
  {
    var th := s.threads[tid];
    RecordEnds(s, tid);
    if InSession(th.call) { RecordedShows(s, tid, th.call, th); }
  }

  lemma BeginTells(env: Env, s: State, tid: nat, input: Input, now: int)
    ensures TellsTheEnd(s, DoBegin(env, s, tid, input, now))
  {
  }

  lemma BindTells(s: State, tid: nat, call: Call)
    ensures TellsTheEnd(s, DoBind(s, tid, call))
  {
  }

  lemma CompletedTells(env: Env, s: State, tid: nat)
    requires Enabled(s, AdapterOk(tid))
    ensures TellsTheEnd(s, Next(env, s, AdapterOk(tid)))
  {
    if InSession(s.threads[tid].call) { TouchShows(s, s.threads[tid].call, Completed, true); }
  }

  /** Whenever a judged execution ends, the session it names shows it, in a phase that fits its decision. */
  lemma SessionsTellTheEnd(env: Env, s: State, step: Step)
    requires Enabled(s, step)
    ensures TellsTheEnd(s, Next(env, s, step))
  {
    match step
    case Decide(tid, hour, id, now) =>
      var call := s.threads[tid].call;
      EvaluatedTells(env, s, tid, call, ContextOf(call, s.threads[tid].count, hour), id, now);
    case AdapterOk(tid) => CompletedTells(env, s, tid);
    case Record(tid) => RecordedTells(s, tid);
    case Begin(tid, input, now) => BeginTells(env, s, tid, input, now);
    case BindApproval(tid) => BindTells(s, tid, s.threads[tid].call);
    case _ =>
  }
}
