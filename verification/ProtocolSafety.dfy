/** What every step keeps about audit records, approvals and revocation, and the safety of whole runs. */
module ProtocolSafety {
  import opened Prelude
  import opened Policy
  import opened Approvals
  import opened Protocol
  import opened ProtocolQuota

  // ------------------------------------------------------------------- invariants

  /** Ended executions and audit events are in one-to-one correspondence, with equal decisions. */
  predicate RecordsAgree(s: State) {
    && (forall i :: 0 <= i < |s.audit| ==>
          s.audit[i].tid in s.threads && s.threads[s.audit[i].tid] == Done(s.audit[i].decision, i, s.audit[i].call))
    && (forall t :: t in s.threads && s.threads[t].Done? ==>
          s.threads[t].index < |s.audit| && s.audit[s.threads[t].index].tid == t)
  }

  /** The event that asked for an approval. */
  predicate AskedFor(e: Event, a: Approval) {
    && e.decision == RequireApproval && e.call.Some?
    && e.call.value.input.token == a.token && e.call.value.claims.tool == a.tool
    && e.call.value.input.payload == a.payload && e.call.value.claims.jti == a.jti
  }

  predicate RequestsAreAskedFor(s: State) {
    forall id :: id in s.requests ==>
      s.requests[id].id == id && s.requests[id].auditId < |s.audit| && AskedFor(s.audit[s.requests[id].auditId], s.requests[id])
  }

  /** An execution that claims an approval names one on record, approved for its very token, tool and payload. */
  predicate Backed(requests: Requests, call: Call) {
    call.granted ==>
      && call.input.approvalId.Some? && call.input.approvalId.value in requests
      && Covers(requests[call.input.approvalId.value], call.input.token, call.input.tool, call.input.payload)
  }

  predicate GrantsAreBacked(s: State) {
    && (forall t :: t in s.threads && !s.threads[t].Done? ==> Backed(s.requests, s.threads[t].call))
    && (forall i :: 0 <= i < |s.audit| && s.audit[i].call.Some? ==>
          var call := s.audit[i].call.value;
          Backed(s.requests, call) && (call.granted ==> s.requests[call.input.approvalId.value].auditId < i))
  }

  predicate PastDecision(th: Thread) {
    th.Consuming? || th.Running? || th.Failing? || th.Failed? || th.Refused? || th.Replayed?
  }

  predicate ApprovalInvariant(s: State) {
    RecordsAgree(s) && RequestsAreAskedFor(s) && GrantsAreBacked(s)
  }

  // ------------------------------------------------------- the two shapes of a step

  /** An execution moves on; the log stays, and no request that was settled changes. */
  predicate Moves(s: State, s': State, tid: nat, th: Thread) {
    s'.threads == s.threads[tid := th] && s'.audit == s.audit && s'.requests == s.requests
    && !th.Done? && (tid in s.threads ==> !s.threads[tid].Done?)
  }

  /** An execution ends with one event. */
  predicate Ends(s: State, s': State, tid: nat, e: Event) {
    e.tid == tid && s'.threads == s.threads[tid := Done(e.decision, |s.audit|, e.call)] && s'.audit == s.audit + [e]
    && (tid in s.threads ==> !s.threads[tid].Done?)
  }

  lemma MoveKeepsApprovals(s: State, s': State, tid: nat, th: Thread)
    requires ApprovalInvariant(s) && Moves(s, s', tid, th) && Backed(s.requests, th.call)
    ensures ApprovalInvariant(s')
  {
  }

  lemma EndKeepsApprovals(s: State, s': State, tid: nat, e: Event)
    requires ApprovalInvariant(s) && Ends(s, s', tid, e) && s'.requests == s.requests
    requires e.call.Some? ==> Backed(s.requests, e.call.value)
    ensures ApprovalInvariant(s')
  {
  }

  /** A new request, under an id not used before, tied to an event that asked for it. */
  lemma AskingKeepsApprovals(s: State, id: string, a: Approval)
    requires ApprovalInvariant(s) && id !in s.requests
    requires a.id == id && a.auditId < |s.audit| && AskedFor(s.audit[a.auditId], a)
    ensures ApprovalInvariant(s.(requests := s.requests[id := a]))
  {
  }

  lemma ResolvedKeepsBacking(requests: Requests, call: Call, id: string, verdict: Status, now: int, resolver: Option<string>)
    requires Backed(requests, call)
    ensures Backed(Resolved(requests, id, verdict, now, resolver), call)
    ensures call.granted ==> Resolved(requests, id, verdict, now, resolver)[call.input.approvalId.value] ==
                             requests[call.input.approvalId.value]
  {
  }

  lemma SettlingKeepsApprovals(s: State, id: string, verdict: Status, now: int, resolver: Option<string>)
    requires ApprovalInvariant(s)
    ensures ApprovalInvariant(s.(requests := Resolved(s.requests, id, verdict, now, resolver)))
  {
    forall t | t in s.threads && !s.threads[t].Done? {
      ResolvedKeepsBacking(s.requests, s.threads[t].call, id, verdict, now, resolver);
    }
    forall i | 0 <= i < |s.audit| && s.audit[i].call.Some? {
      ResolvedKeepsBacking(s.requests, s.audit[i].call.value, id, verdict, now, resolver);
    }
  }

  // ------------------------------------------------------------------ preservation

  /** Filing a request ends the execution with the event the request names, and adds the request. */
  lemma AskShape(s: State, tid: nat, call: Call, ctx: Context, reason: Reason, approvalId: string, now: int)
    requires tid in s.threads && s.threads[tid].Counted?
    ensures var s' := DoDecide(s, tid, call, ctx, RequireApproval, reason, approvalId, now);
            var e := Event(tid, RequireApproval, false, Some(call), Some(ctx));
            && Ends(s, s'.(requests := s.requests), tid, e) && approvalId in s'.requests
            && s'.requests == s.requests[approvalId := s'.requests[approvalId]]
            && var a := s'.requests[approvalId];
               a.id == approvalId && a.auditId == |s.audit| && (call.claims.tool == call.input.tool ==> AskedFor(e, a))
  {
  }

  lemma AskKeepsApprovals(s: State, tid: nat, call: Call, ctx: Context, reason: Reason, approvalId: string, now: int)
    requires ApprovalInvariant(s) && tid in s.threads && s.threads[tid].Counted? && s.threads[tid].call == call
    requires approvalId !in s.requests && call.claims.tool == call.input.tool
    ensures ApprovalInvariant(DoDecide(s, tid, call, ctx, RequireApproval, reason, approvalId, now))
  {
    var s' := DoDecide(s, tid, call, ctx, RequireApproval, reason, approvalId, now);
    var ended := s'.(requests := s.requests);
    AskShape(s, tid, call, ctx, reason, approvalId, now);
    EndKeepsApprovals(s, ended, tid, Event(tid, RequireApproval, false, Some(call), Some(ctx)));
    AskingKeepsApprovals(ended, approvalId, s'.requests[approvalId]);
  }

  lemma OtherVerdictsKeepRequests(s: State, tid: nat, call: Call, ctx: Context, verdict: Decision, reason: Reason, approvalId: string, now: int)
    requires verdict != RequireApproval
    ensures DoDecide(s, tid, call, ctx, verdict, reason, approvalId, now).requests == s.requests
  {
  }

  lemma DecidedKeepsApprovals(s: State, s': State, tid: nat, call: Call, ctx: Context, verdict: Decision)
    requires ApprovalInvariant(s) && tid in s.threads && s.threads[tid].Counted? && s.threads[tid].call == call
    requires DecidedFrom(s, s', tid, call, ctx, Some(verdict)) && s'.requests == s.requests
    ensures ApprovalInvariant(s')
  {
    if verdict == Allow {
      MoveKeepsApprovals(s, s', tid, Consuming(call, ctx));
    } else {
      EndKeepsApprovals(s, s', tid, Event(tid, verdict, false, Some(call), Some(ctx)));
    }
  }

  lemma DecideKeepsApprovals(s: State, tid: nat, call: Call, ctx: Context, verdict: Decision, reason: Reason, approvalId: string, now: int)
    requires ApprovalInvariant(s) && tid in s.threads && s.threads[tid].Counted? && s.threads[tid].call == call
    requires approvalId !in s.requests && call.claims.tool == call.input.tool
    ensures ApprovalInvariant(DoDecide(s, tid, call, ctx, verdict, reason, approvalId, now))
  {
    if verdict == RequireApproval {
      AskKeepsApprovals(s, tid, call, ctx, reason, approvalId, now);
    } else {
      OtherVerdictsKeepRequests(s, tid, call, ctx, verdict, reason, approvalId, now);
      VerdictShape(s, tid, call, ctx, verdict, reason, approvalId, now);
      DecidedKeepsApprovals(s, DoDecide(s, tid, call, ctx, verdict, reason, approvalId, now), tid, call, ctx, verdict);
    }
  }

  lemma EvaluateKeepsApprovals(env: Env, s: State, tid: nat, call: Call, ctx: Context, approvalId: string, now: int)
    requires ApprovalInvariant(s) && tid in s.threads && s.threads[tid].Counted? && s.threads[tid].call == call
    requires approvalId !in s.requests && call.claims.tool == call.input.tool
    ensures ApprovalInvariant(DoEvaluate(env, s, tid, call, ctx, approvalId, now))
  {
    match PolicyFor(env, s.versions, call.claims)
    case None =>
      EndKeepsApprovals(s, DoEvaluate(env, s, tid, call, ctx, approvalId, now), tid, Event(tid, Deny, false, Some(call), None));
    case Some(policy) =>
      var e := env.engine.evaluate(policy.doc, ctx);
      DecideKeepsApprovals(Resolving(env, s, call.claims), tid, call, ctx, VerdictOf(e, ctx.simulate), ReasonOf(e), approvalId, now);
  }

  lemma RecordEnds(s: State, tid: nat)
    requires Enabled(s, Record(tid))
    ensures var th, s' := s.threads[tid], DoRecord(s, tid, s.threads[tid]);
            Ends(s, s', tid, Event(tid, if th.Replayed? then Allow else Deny, th.Replayed?, Some(th.call), Some(th.ctx)))
            && s'.requests == s.requests
  {
  }

  predicate Early(step: Step) {
    step.Begin? || step.CheckRevocation? || step.BindApproval? || step.ReadCount?
  }

  predicate Late(step: Step) {
    step.Consume? || step.AdapterOk? || step.AdapterFail? || step.ReleaseReservation?
  }

  /** An execution under way, backed and undecided, or an end other than ALLOW. */
  predicate EarlyShape(s: State, s': State, tid: nat) {
    && s'.requests == s.requests && tid in s'.threads
    && ((Moves(s, s', tid, s'.threads[tid]) && Backed(s.requests, s'.threads[tid].call) && !PastDecision(s'.threads[tid]))
        || (|s'.audit| == |s.audit| + 1
            && var e := s'.audit[|s.audit|];
               Ends(s, s', tid, e) && e.decision == Deny && (e.call.Some? ==> Backed(s.requests, e.call.value))))
  }

  lemma BeginShape(env: Env, s: State, tid: nat, input: Input, now: int)
    requires tid !in s.threads
    ensures EarlyShape(s, DoBegin(env, s, tid, input, now), tid)
  {
  }

  lemma BindShape(s: State, tid: nat, call: Call)
    requires tid in s.threads && s.threads[tid] == Cleared(call) && Backed(s.requests, call)
    requires call.claims.tool == call.input.tool
    ensures EarlyShape(s, DoBind(s, tid, call), tid)
  {
  }

  /** What an early step comes to. */
  lemma EarlyStepShape(env: Env, s: State, step: Step)
    requires Enabled(s, step) && Early(step) && GenuineCalls(env, s)
    requires step.tid in s.threads ==> Backed(s.requests, s.threads[step.tid].call)
    ensures EarlyShape(s, Next(env, s, step), step.tid)
  {
    match step
    case Begin(tid, input, now) => BeginShape(env, s, tid, input, now);
    case BindApproval(tid) => BindShape(s, tid, s.threads[tid].call);
    case CheckRevocation(_) =>
    case ReadCount(_) =>
  }

  lemma EarlyStepKeepsApprovals(env: Env, s: State, step: Step)
    requires Enabled(s, step) && Early(step) && ApprovalInvariant(s) && GenuineCalls(env, s)
    ensures ApprovalInvariant(Next(env, s, step))
  {
    EarlyStepShape(env, s, step);
    var s', tid := Next(env, s, step), step.tid;
    if Moves(s, s', tid, s'.threads[tid]) {
      MoveKeepsApprovals(s, s', tid, s'.threads[tid]);
    } else {
      EndKeepsApprovals(s, s', tid, s'.audit[|s.audit|]);
    }
  }

  /** A step past the decision: the execution ends with an ALLOW, or moves on with the call and context it was decided in. */
  predicate LateShape(s: State, s': State, tid: nat, ending: bool) {
    && s'.requests == s.requests && tid in s.threads && tid in s'.threads && PastDecision(s.threads[tid])
    && var th := s.threads[tid];
       if ending then Ends(s, s', tid, Event(tid, Allow, false, Some(th.call), Some(th.ctx)))
       else && Moves(s, s', tid, s'.threads[tid]) && PastDecision(s'.threads[tid])
            && s'.threads[tid].call == th.call && s'.threads[tid].ctx == th.ctx
  }

  lemma LateStepShape(env: Env, s: State, step: Step)
    requires Enabled(s, step) && Late(step)
    ensures LateShape(s, Next(env, s, step), step.tid, step.AdapterOk?)
  {
    match step
    case Consume(tid) =>
    case AdapterOk(tid) =>
    case AdapterFail(tid) =>
    case ReleaseReservation(tid) =>
  }

  lemma LateShapeKeepsApprovals(s: State, s': State, tid: nat, ending: bool)
    requires ApprovalInvariant(s) && LateShape(s, s', tid, ending)
    ensures ApprovalInvariant(s')
  {
    var th := s.threads[tid];
    assert Backed(s.requests, th.call);
    if ending {
      EndKeepsApprovals(s, s', tid, Event(tid, Allow, false, Some(th.call), Some(th.ctx)));
    } else {
      MoveKeepsApprovals(s, s', tid, s'.threads[tid]);
    }
  }

  lemma RecordKeepsApprovals(s: State, tid: nat)
    requires Enabled(s, Record(tid)) && ApprovalInvariant(s)
    ensures ApprovalInvariant(DoRecord(s, tid, s.threads[tid]))
  {
    var th := s.threads[tid];
    var e := Event(tid, if th.Replayed? then Allow else Deny, th.Replayed?, Some(th.call), Some(th.ctx));
    RecordEnds(s, tid);
    EndKeepsApprovals(s, DoRecord(s, tid, th), tid, e);
  }

  predicate SafetyInvariant(env: Env, s: State) {
    GenuineCalls(env, s) && ApprovalInvariant(s)
  }

  lemma LateStepKeepsApprovals(env: Env, s: State, step: Step)
    requires Enabled(s, step) && Late(step) && ApprovalInvariant(s)
    ensures ApprovalInvariant(Next(env, s, step))
  {
    LateStepShape(env, s, step);
    LateShapeKeepsApprovals(s, Next(env, s, step), step.tid, step.AdapterOk?);
  }

  lemma StepKeepsApprovals(env: Env, s: State, step: Step)
    requires Enabled(s, step) && SafetyInvariant(env, s)
    ensures ApprovalInvariant(Next(env, s, step))
  {
    if Early(step) {
      EarlyStepKeepsApprovals(env, s, step);
    } else if Late(step) {
      LateStepKeepsApprovals(env, s, step);
    } else if step.Decide? {
      var call := s.threads[step.tid].call;
      EvaluateKeepsApprovals(env, s, step.tid, call, ContextOf(call, s.threads[step.tid].count, step.hour),
                             step.approvalId, step.now);
    } else if step.Record? {
      RecordKeepsApprovals(s, step.tid);
    } else if step.SettleApproval? {
      SettlingKeepsApprovals(s, step.id, step.verdict, step.now, step.resolver);
    }
  }

  /** Every step keeps the bond of executions to events and of approvals to the events that asked for them. */
  lemma StepKeepsSafety(env: Env, s: State, step: Step)
    requires Enabled(s, step) && SafetyInvariant(env, s)
    ensures SafetyInvariant(env, Next(env, s, step))
  {
    StepKeepsGenuine(env, s, step);
    StepKeepsApprovals(env, s, step);
  }

  lemma {:induction false} RunKeepsSafety(env: Env, s: State, steps: seq<Step>)
    requires IsRun(env, s, steps) && SafetyInvariant(env, s)
    ensures SafetyInvariant(env, After(env, s, steps))
    decreases |steps|
  {
    if steps != [] {
      StepKeepsSafety(env, s, steps[0]);
      RunKeepsSafety(env, Next(env, s, steps[0]), steps[1..]);
    }
  }

  // ---------------------------------------------------------------- main results

  /** The approval a call names was asked for by an event before the `i`th, for this very execution, and approved. */
  predicate ApprovedBefore(s: State, call: Call, i: nat) {
    && call.input.approvalId.Some? && call.input.approvalId.value in s.requests
    && var a := s.requests[call.input.approvalId.value];
       && a.status == Approved && a.auditId < i && a.auditId < |s.audit| && AskedFor(s.audit[a.auditId], a)
       && a.token == call.input.token && a.tool == call.input.tool && a.payload.text == call.input.payload.text
  }

  /** Every ended execution has exactly one audit event, and it records the decision that was returned. */
  lemma OneEventPerExecution(env: Env, steps: seq<Step>, tid: nat)
    requires IsRun(env, Initial(), steps)
    requires tid in After(env, Initial(), steps).threads
    ensures var s := After(env, Initial(), steps); var th := s.threads[tid];
            && (th.Done? ==> forall i :: 0 <= i < |s.audit| ==> (s.audit[i].tid == tid <==> i == th.index))
            && (th.Done? ==> th.index < |s.audit| && s.audit[th.index].decision == th.decision)
            && (!th.Done? ==> forall i :: 0 <= i < |s.audit| ==> s.audit[i].tid != tid)
  {
    RunKeepsSafety(env, Initial(), steps);
  }

  /** Where an execution may stand on a revoked token: not yet checked, or ended with a DENY. */
  predicate Stopped(th: Thread, jti: string) {
    match th
    case Done(decision, _, outcome) => outcome.Some? && outcome.value.claims.jti == jti ==> decision == Deny
    case Checking(_) => true
    case _ => th.call.claims.jti != jti
  }

  /** Once a token is revoked, an execution that has not passed the check by then can only end in DENY. */
  lemma {:induction false} RevocationStopsTheToken(env: Env, s: State, steps: seq<Step>, jti: string, tid: nat)
    requires IsRun(env, s, steps) && jti in s.revoked
    requires tid in s.threads ==> Stopped(s.threads[tid], jti)
    ensures var s' := After(env, s, steps); tid in s'.threads ==> Stopped(s'.threads[tid], jti)
    decreases |steps|
  {
    if steps != [] {
      RevokedStep(env, s, steps[0], jti, tid);
      RevocationStopsTheToken(env, Next(env, s, steps[0]), steps[1..], jti, tid);
    }
  }

  lemma RevokedDecided(s: State, s': State, acting: nat, call: Call, ctx: Context, verdict: Option<Decision>, jti: string, tid: nat)
    requires tid in s.threads ==> Stopped(s.threads[tid], jti)
    requires (acting == tid ==> call.claims.jti != jti) && DecidedFrom(s, s', acting, call, ctx, verdict)
    ensures tid in s'.threads ==> Stopped(s'.threads[tid], jti)
  {
  }

  lemma RevokedBegin(env: Env, s: State, acting: nat, input: Input, now: int, jti: string, tid: nat)
    requires acting !in s.threads && (tid in s.threads ==> Stopped(s.threads[tid], jti))
    ensures var s' := DoBegin(env, s, acting, input, now);
            s'.revoked == s.revoked && (tid in s'.threads ==> Stopped(s'.threads[tid], jti))
  {
  }

  lemma RevokedBind(s: State, acting: nat, call: Call, jti: string, tid: nat)
    requires (tid in s.threads ==> Stopped(s.threads[tid], jti)) && (acting == tid ==> call.claims.jti != jti)
    ensures var s' := DoBind(s, acting, call);
            s'.revoked == s.revoked && (tid in s'.threads ==> Stopped(s'.threads[tid], jti))
  {
  }

  lemma RevokedLate(s: State, s': State, acting: nat, ending: bool, jti: string, tid: nat)
    requires LateShape(s, s', acting, ending) && (tid in s.threads ==> Stopped(s.threads[tid], jti))
    ensures tid in s'.threads ==> Stopped(s'.threads[tid], jti)
  {
  }

  lemma LateStepsKeepRevoked(env: Env, s: State, step: Step)
    requires Enabled(s, step) && (Late(step) || step.Record?)
    ensures Next(env, s, step).revoked == s.revoked
  {
  }

  lemma RevokedRecord(s: State, acting: nat, jti: string, tid: nat)
    requires Enabled(s, Record(acting)) && (tid in s.threads ==> Stopped(s.threads[tid], jti))
    ensures var s' := DoRecord(s, acting, s.threads[acting]); tid in s'.threads ==> Stopped(s'.threads[tid], jti)
  {
    RecordShape(s, acting);
  }

  lemma RevokedStep(env: Env, s: State, step: Step, jti: string, tid: nat)
    requires Enabled(s, step) && jti in s.revoked && (tid in s.threads ==> Stopped(s.threads[tid], jti))
    ensures jti in Next(env, s, step).revoked
    ensures tid in Next(env, s, step).threads ==> Stopped(Next(env, s, step).threads[tid], jti)
  {
    if step.Decide? {
      var call := s.threads[step.tid].call;
      var ctx := ContextOf(call, s.threads[step.tid].count, step.hour);
      EvaluateShape(env, s, step.tid, call, ctx, step.approvalId, step.now);
      RevokedDecided(s, Next(env, s, step), step.tid, call, ctx, FoundVerdict(env, s.versions, call.claims, ctx), jti, tid);
    } else if step.Begin? {
      RevokedBegin(env, s, step.tid, step.input, step.now, jti, tid);
    } else if step.BindApproval? {
      RevokedBind(s, step.tid, s.threads[step.tid].call, jti, tid);
    } else if Late(step) {
      LateStepShape(env, s, step);
      LateStepsKeepRevoked(env, s, step);
      RevokedLate(s, Next(env, s, step), step.tid, step.AdapterOk?, jti, tid);
    } else if step.Record? {
      LateStepsKeepRevoked(env, s, step);
      RevokedRecord(s, step.tid, jti, tid);
    }
  }
}
