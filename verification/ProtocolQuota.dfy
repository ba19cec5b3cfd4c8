/** What every step of the protocol keeps about quota, request ids and session counts. */
module ProtocolQuota {
  import opened Prelude
  import opened Policy
  import opened Tokens
  import opened Ledgers
  import opened Sessions
  import opened Protocol

  predicate Genuine(env: Env, call: Call) {
    && call.input.token in env.tokens && call.claims == env.tokens[call.input.token]
    && ValidClaims(call.claims) && call.claims.tool == call.input.tool
  }

  /** Every execution under way carries the claims of its own, valid token. */
  predicate GenuineCalls(env: Env, s: State) {
    forall t :: t in s.threads && !s.threads[t].Done? ==> Genuine(env, s.threads[t].call)
  }

  /** The ledger's count is the reservations in flight plus the actions completed. */
  ghost predicate CountsAgree(s: State) {
    forall jti :: Count(s.ledger, jti) == Used(s, ForToken(jti))
  }

  /** A request id is in the set exactly when one reservation in flight or one completed action carries it, never two. */
  ghost predicate RequestsAgree(s: State) {
    forall jti, r :: r != "" ==> Used(s, ForRequest(jti, r)) == if r in RequestsOf(s.ledger, jti) then 1 else 0
  }

  predicate WithinLimits(env: Env, s: State) {
    forall token :: token in env.tokens && ValidClaims(env.tokens[token]) && LimitOf(env.tokens[token]).Some? ==>
      Count(s.ledger, env.tokens[token].jti) <= LimitOf(env.tokens[token]).value
  }

  /** A session's action count is the number of its completed actions. */
  ghost predicate SessionsAgree(s: State) {
    forall id :: id != "" ==> Actions(s.sessions, id) == Spent(s.audit, ForSession(id))
  }

  ghost predicate QuotaInvariant(env: Env, s: State) {
    GenuineCalls(env, s) && CountsAgree(s) && RequestsAgree(s) && WithinLimits(env, s) && SessionsAgree(s)
  }

  // ------------------------------------------------- what one step does to the counts

  function Weight(b: bool): int {
    if b then 1 else 0
  }

  function Before(s: State, tid: nat, tag: Tag): int {
    Weight(tid in s.threads && Holds(s.threads[tid], tag))
  }

  /** A step that moves one execution on and writes nothing to the log. */
  lemma UsedAfterMove(s: State, s': State, tid: nat, th: Thread, tag: Tag)
    requires s'.threads == s.threads[tid := th] && s'.audit == s.audit
    ensures Used(s', tag) == Used(s, tag) - Before(s, tid, tag) + Weight(Holds(th, tag))
  {
    HoldersUpdate(s.threads, tid, th, tag);
  }

  /** A step that ends one execution with one event. */
  lemma UsedAfterFinish(s: State, s': State, tid: nat, e: Event, tag: Tag)
    requires s'.threads == s.threads[tid := Done(e.decision, |s.audit|, e.call)] && s'.audit == s.audit + [e]
    ensures Used(s', tag) == Used(s, tag) - Before(s, tid, tag) + Weight(Spends(e, tag))
  {
    HoldersUpdate(s.threads, tid, Done(e.decision, |s.audit|, e.call), tag);
    SpentAppend(s.audit, e, tag);
  }

  predicate Reserves(s: State, step: Step, tag: Tag)
    requires Enabled(s, step)
  {
    && step.Consume? && Tagged(s.threads[step.tid].call, tag)
    && var call := s.threads[step.tid].call;
       var r := Reserve(s.ledger, call.claims.jti, LimitOf(call.claims), call.input.requestId).1;
       r.allowed && !r.replay
  }

  predicate Releases(s: State, step: Step, tag: Tag)
    requires Enabled(s, step)
  {
    step.ReleaseReservation? && Tagged(s.threads[step.tid].call, tag)
  }

  lemma UsedAfterVerdict(s: State, s': State, tid: nat, call: Call, ctx: Context, verdict: Decision, tag: Tag)
    requires tid in s.threads && s.threads[tid].Counted? && DecidedFrom(s, s', tid, call, ctx, Some(verdict))
    ensures Used(s', tag) == Used(s, tag)
  {
    if verdict == Allow {
      UsedAfterMove(s, s', tid, Consuming(call, ctx), tag);
    } else {
      UsedAfterFinish(s, s', tid, Event(tid, verdict, false, Some(call), Some(ctx)), tag);
    }
  }

  lemma UsedAfterDecide(s: State, tid: nat, call: Call, ctx: Context, verdict: Decision, reason: Reason,
                        approvalId: string, now: int, tag: Tag)
    requires tid in s.threads && s.threads[tid].Counted?
    ensures Used(DoDecide(s, tid, call, ctx, verdict, reason, approvalId, now), tag) == Used(s, tag)
  {
    VerdictShape(s, tid, call, ctx, verdict, reason, approvalId, now);
    UsedAfterVerdict(s, DoDecide(s, tid, call, ctx, verdict, reason, approvalId, now), tid, call, ctx, verdict, tag);
  }

  lemma RecordShape(s: State, tid: nat)
    requires Enabled(s, Record(tid))
    ensures var s', th := DoRecord(s, tid, s.threads[tid]), s.threads[tid];
            var decision := if th.Replayed? then Allow else Deny;
            && s'.threads == s.threads[tid := Done(decision, |s.audit|, Some(th.call))]
            && s'.audit == s.audit + [Event(tid, decision, th.Replayed?, Some(th.call), Some(th.ctx))]
  {
  }

  lemma UsedAfterRecord(s: State, tid: nat, tag: Tag)
    requires Enabled(s, Record(tid))
    ensures Used(DoRecord(s, tid, s.threads[tid]), tag) == Used(s, tag)
  {
    var th := s.threads[tid];
    var e := Event(tid, if th.Replayed? then Allow else Deny, th.Replayed?, Some(th.call), Some(th.ctx));
    RecordShape(s, tid);
    UsedAfterFinish(s, DoRecord(s, tid, th), tid, e, tag);
    assert !Spends(e, tag) && Before(s, tid, tag) == 0;
  }

  predicate Waiting(th: Thread) {
    th.Checking? || th.Cleared? || th.Bound? || th.Counted?
  }

  /** An execution on its way to the decision, or ended with a DENY; sessions and ledger as they were. */
  predicate Advances(s: State, s': State, tid: nat) {
    && s'.sessions == s.sessions && s'.ledger == s.ledger && tid in s'.threads
    && ((s'.audit == s.audit && Waiting(s'.threads[tid]) && s'.threads == s.threads[tid := s'.threads[tid]])
        || (|s'.audit| == |s.audit| + 1
            && var e := s'.audit[|s.audit|];
               && e.decision == Deny && s'.audit == s.audit + [e]
               && s'.threads == s.threads[tid := Done(Deny, |s.audit|, e.call)]))
  }

  lemma BeginAdvances(env: Env, s: State, tid: nat, input: Input, now: int)
    ensures Advances(s, DoBegin(env, s, tid, input, now), tid)
  {
  }

  lemma BindAdvances(s: State, tid: nat, call: Call)
    ensures Advances(s, DoBind(s, tid, call), tid)
  {
  }

  lemma EarlyStepAdvances(env: Env, s: State, step: Step)
    requires Enabled(s, step)
    requires step.Begin? || step.CheckRevocation? || step.BindApproval? || step.ReadCount?
    ensures Advances(s, Next(env, s, step), step.tid)
  {
    match step
    case Begin(tid, input, now) => BeginAdvances(env, s, tid, input, now);
    case BindApproval(tid) => BindAdvances(s, tid, s.threads[tid].call);
    case _ =>
  }

  lemma UsedAfterAdvance(s: State, s': State, tid: nat, tag: Tag)
    requires Advances(s, s', tid) && (tid in s.threads ==> Waiting(s.threads[tid]))
    ensures Used(s', tag) == Used(s, tag)
  {
    if |s'.audit| == |s.audit| {
      UsedAfterMove(s, s', tid, s'.threads[tid], tag);
    } else {
      UsedAfterFinish(s, s', tid, s'.audit[|s.audit|], tag);
    }
  }

  lemma UsedAfterEarlyStep(env: Env, s: State, step: Step, tag: Tag)
    requires Enabled(s, step)
    requires step.Begin? || step.CheckRevocation? || step.BindApproval? || step.ReadCount?
    ensures Used(Next(env, s, step), tag) == Used(s, tag)
  {
    EarlyStepAdvances(env, s, step);
    UsedAfterAdvance(s, Next(env, s, step), step.tid, tag);
  }

  lemma UsedAfterEvaluate(env: Env, s: State, tid: nat, call: Call, ctx: Context, approvalId: string, now: int, tag: Tag)
    requires tid in s.threads && s.threads[tid].Counted?
    ensures Used(DoEvaluate(env, s, tid, call, ctx, approvalId, now), tag) == Used(s, tag)
  {
    match PolicyFor(env, s.versions, call.claims)
    case None =>
      UsedAfterFinish(s, DoEvaluate(env, s, tid, call, ctx, approvalId, now), tid, Event(tid, Deny, false, Some(call), None), tag);
    case Some(policy) =>
      var e := env.engine.evaluate(policy.doc, ctx);
      UsedAfterDecide(Resolving(env, s, call.claims), tid, call, ctx, VerdictOf(e, ctx.simulate), ReasonOf(e), approvalId, now, tag);
  }

  /** Only a granted reservation adds to what is used and only a release takes from it; completing moves one to the other. */
  lemma UsedAfterStep(env: Env, s: State, step: Step, tag: Tag)
    requires Enabled(s, step)
    ensures Used(Next(env, s, step), tag) ==
            Used(s, tag) + Weight(Reserves(s, step, tag)) - Weight(Releases(s, step, tag))
  {
    match step
    case SettleApproval(_, _, _, _) =>
    case Revoke(_) =>
    case Register(_, _) =>
    case Decide(tid, hour, approvalId, now) =>
      UsedAfterEvaluate(env, s, tid, s.threads[tid].call, ContextOf(s.threads[tid].call, s.threads[tid].count, hour),
                        approvalId, now, tag);
    case Record(tid) => UsedAfterRecord(s, tid, tag);
    case Begin(_, _, _) => UsedAfterEarlyStep(env, s, step, tag);
    case CheckRevocation(_) => UsedAfterEarlyStep(env, s, step, tag);
    case BindApproval(_) => UsedAfterEarlyStep(env, s, step, tag);
    case ReadCount(_) => UsedAfterEarlyStep(env, s, step, tag);
    case _ => UsedAfterLedgerStep(env, s, step, tag);
  }

  lemma UsedAfterLedgerStep(env: Env, s: State, step: Step, tag: Tag)
    requires Enabled(s, step)
    requires step.Consume? || step.AdapterOk? || step.AdapterFail? || step.ReleaseReservation?
    ensures Used(Next(env, s, step), tag) ==
            Used(s, tag) + Weight(Reserves(s, step, tag)) - Weight(Releases(s, step, tag))
  {
    var s', tid := Next(env, s, step), step.tid;
    if step.AdapterOk? {
      UsedAfterFinish(s, s', tid, Event(tid, Allow, false, Some(s.threads[tid].call), Some(s.threads[tid].ctx)), tag);
    } else {
      UsedAfterMove(s, s', tid, s'.threads[tid], tag);
    }
  }

  /** The thread that releases holds its reservation, so the count it lowers is positive: the script's guard never fails. */
  lemma ReleaseAlwaysFindsACount(env: Env, s: State, tid: nat)
    requires QuotaInvariant(env, s) && Enabled(s, ReleaseReservation(tid))
    ensures Count(s.ledger, s.threads[tid].call.claims.jti) > 0
    ensures Tracked(s.threads[tid].call.input.requestId) ==>
              s.threads[tid].call.input.requestId.value in RequestsOf(s.ledger, s.threads[tid].call.claims.jti)
  {
    var call := s.threads[tid].call;
    assert tid in Holders(s.threads, ForToken(call.claims.jti));
    if Tracked(call.input.requestId) {
      assert tid in Holders(s.threads, ForRequest(call.claims.jti, call.input.requestId.value));
    }
  }

  // ------------------------------------------------------------------ preservation

  lemma DecidedKeepsGenuine(env: Env, s: State, s': State, tid: nat, call: Call, ctx: Context, verdict: Option<Decision>)
    requires GenuineCalls(env, s) && Genuine(env, call) && DecidedFrom(s, s', tid, call, ctx, verdict)
    ensures GenuineCalls(env, s')
  {
  }

  lemma EvaluateKeepsGenuine(env: Env, s: State, tid: nat, call: Call, ctx: Context, approvalId: string, now: int)
    requires GenuineCalls(env, s) && Genuine(env, call)
    ensures GenuineCalls(env, DoEvaluate(env, s, tid, call, ctx, approvalId, now))
  {
    EvaluateShape(env, s, tid, call, ctx, approvalId, now);
    DecidedKeepsGenuine(env, s, DoEvaluate(env, s, tid, call, ctx, approvalId, now), tid, call, ctx,
                        FoundVerdict(env, s.versions, call.claims, ctx));
  }

  lemma BeginKeepsGenuine(env: Env, s: State, tid: nat, input: Input, now: int)
    requires GenuineCalls(env, s)
    ensures GenuineCalls(env, DoBegin(env, s, tid, input, now))
  {
  }

  lemma BindKeepsGenuine(env: Env, s: State, tid: nat, call: Call)
    requires GenuineCalls(env, s) && Genuine(env, call)
    ensures GenuineCalls(env, DoBind(s, tid, call))
  {
  }

  lemma RecordKeepsGenuine(env: Env, s: State, tid: nat)
    requires GenuineCalls(env, s) && Enabled(s, Record(tid))
    ensures GenuineCalls(env, DoRecord(s, tid, s.threads[tid]))
  {
    RecordShape(s, tid);
  }

  lemma StepKeepsGenuine(env: Env, s: State, step: Step)
    requires Enabled(s, step) && GenuineCalls(env, s)
    ensures GenuineCalls(env, Next(env, s, step))
  {
    if step.Begin? {
      BeginKeepsGenuine(env, s, step.tid, step.input, step.now);
    } else if step.BindApproval? {
      BindKeepsGenuine(env, s, step.tid, s.threads[step.tid].call);
    } else if step.Decide? {
      var call := s.threads[step.tid].call;
      EvaluateKeepsGenuine(env, s, step.tid, call, ContextOf(call, s.threads[step.tid].count, step.hour), step.approvalId, step.now);
    } else if step.Record? {
      RecordKeepsGenuine(env, s, step.tid);
    }
  }

  lemma ReserveMovesLedger(l: Ledger, jti: string, limit: Option<int>, request: Option<string>, other: string, r: string)
    requires r != ""
    ensures var (l', c) := Reserve(l, jti, limit, request); var moved := c.allowed && !c.replay;
            && Count(l', other) == Count(l, other) + Weight(moved && other == jti)
            && Weight(r in RequestsOf(l', other)) ==
               Weight(r in RequestsOf(l, other)) + Weight(moved && other == jti && request == Some(r))
  {
  }

  lemma ReleaseMovesLedger(l: Ledger, jti: string, request: Option<string>, other: string, r: string)
    requires r != "" && Count(l, jti) > 0 && (Tracked(request) ==> request.value in RequestsOf(l, jti))
    ensures var l' := Unreserve(l, jti, request);
            && Count(l', other) == Count(l, other) - Weight(other == jti)
            && Weight(r in RequestsOf(l', other)) == Weight(r in RequestsOf(l, other)) - Weight(other == jti && request == Some(r))
  {
  }

  lemma OtherStepsKeepLedger(env: Env, s: State, step: Step)
    requires Enabled(s, step) && !step.Consume? && !step.ReleaseReservation?
    ensures Next(env, s, step).ledger == s.ledger
  {
    if step.Decide? {
      var call := s.threads[step.tid].call;
      EvaluateShape(env, s, step.tid, call, ContextOf(call, s.threads[step.tid].count, step.hour), step.approvalId, step.now);
    } else if step.Begin? {
      BeginAdvances(env, s, step.tid, step.input, step.now);
    } else if step.BindApproval? {
      BindAdvances(s, step.tid, s.threads[step.tid].call);
    }
  }

  /** The ledger moves with what is used: one up on a granted reservation, one down on a release. */
  lemma LedgerAfterStep(env: Env, s: State, step: Step, jti: string, r: string)
    requires Enabled(s, step) && r != ""
    requires step.ReleaseReservation? ==>
               var call := s.threads[step.tid].call;
               && Count(s.ledger, call.claims.jti) > 0
               && (Tracked(call.input.requestId) ==> call.input.requestId.value in RequestsOf(s.ledger, call.claims.jti))
    ensures Count(Next(env, s, step).ledger, jti) ==
            Count(s.ledger, jti) + Weight(Reserves(s, step, ForToken(jti))) - Weight(Releases(s, step, ForToken(jti)))
    ensures Weight(r in RequestsOf(Next(env, s, step).ledger, jti)) ==
            Weight(r in RequestsOf(s.ledger, jti))
            + Weight(Reserves(s, step, ForRequest(jti, r))) - Weight(Releases(s, step, ForRequest(jti, r)))
  {
    if step.Consume? {
      var call := s.threads[step.tid].call;
      ReserveMovesLedger(s.ledger, call.claims.jti, LimitOf(call.claims), call.input.requestId, jti, r);
    } else if step.ReleaseReservation? {
      var call := s.threads[step.tid].call;
      ReleaseMovesLedger(s.ledger, call.claims.jti, call.input.requestId, jti, r);
    } else {
      OtherStepsKeepLedger(env, s, step);
    }
  }

  lemma StepKeepsLedger(env: Env, s: State, step: Step)
    requires Enabled(s, step) && QuotaInvariant(env, s)
    ensures CountsAgree(Next(env, s, step)) && RequestsAgree(Next(env, s, step))
  {
    if step.ReleaseReservation? { ReleaseAlwaysFindsACount(env, s, step.tid); }
    var s' := Next(env, s, step);
    forall jti ensures Count(s'.ledger, jti) == Used(s', ForToken(jti)) {
      UsedAfterStep(env, s, step, ForToken(jti));
      LedgerAfterStep(env, s, step, jti, "r");
    }
    forall jti, r | r != "" ensures Used(s', ForRequest(jti, r)) == if r in RequestsOf(s'.ledger, jti) then 1 else 0 {
      UsedAfterStep(env, s, step, ForRequest(jti, r));
      LedgerAfterStep(env, s, step, jti, r);
    }
  }

  lemma StepKeepsLimits(env: Env, s: State, step: Step)
    requires Enabled(s, step) && QuotaInvariant(env, s) && UniqueIds(env)
    ensures WithinLimits(env, Next(env, s, step))
  {
    if step.ReleaseReservation? { ReleaseAlwaysFindsACount(env, s, step.tid); }
    forall token | token in env.tokens && ValidClaims(env.tokens[token]) && LimitOf(env.tokens[token]).Some?
      ensures Count(Next(env, s, step).ledger, env.tokens[token].jti) <= LimitOf(env.tokens[token]).value
    {
      var jti := env.tokens[token].jti;
      LedgerAfterStep(env, s, step, jti, "r");
      if Reserves(s, step, ForToken(jti)) {
        assert Genuine(env, s.threads[step.tid].call);
        assert s.threads[step.tid].call.claims == env.tokens[token];
      }
    }
  }

  lemma ActionsAfterTouch(s: State, call: Call, phase: Phase, increment: bool, id: string)
    requires id != ""
    ensures Actions(TouchSession(s, call, phase, increment).sessions, id) ==
            Actions(s.sessions, id) + Weight(increment && Tagged(call, ForSession(id)))
  {
  }

  lemma SessionsAfterDecide(s: State, tid: nat, call: Call, ctx: Context, verdict: Decision, reason: Reason,
                            approvalId: string, now: int, id: string)
    requires id != ""
    ensures var s' := DoDecide(s, tid, call, ctx, verdict, reason, approvalId, now);
            Actions(s'.sessions, id) == Actions(s.sessions, id) && Spent(s'.audit, ForSession(id)) == Spent(s.audit, ForSession(id))
  {
    match verdict
    case Deny =>
      ActionsAfterTouch(s, call, Denied, false, id);
      SpentAppend(s.audit, Event(tid, Deny, false, Some(call), Some(ctx)), ForSession(id));
    case RequireApproval =>
      ActionsAfterTouch(s, call, ApprovalRequiredPhase, false, id);
      SpentAppend(s.audit, Event(tid, RequireApproval, false, Some(call), Some(ctx)), ForSession(id));
    case Simulate =>
      ActionsAfterTouch(s, call, Simulated, false, id);
      SpentAppend(s.audit, Event(tid, Simulate, false, Some(call), Some(ctx)), ForSession(id));
    case Allow =>
      ActionsAfterTouch(s, call, ApprovedPhase, false, id);
      ActionsAfterTouch(TouchSession(s, call, ApprovedPhase, false), call, Executing, false, id);
      ActionsAfterTouch(s, call, Executing, false, id);
  }

  lemma SessionsAfterRecord(s: State, tid: nat, id: string)
    requires id != "" && Enabled(s, Record(tid))
    ensures var s' := DoRecord(s, tid, s.threads[tid]);
            Actions(s'.sessions, id) == Actions(s.sessions, id) && Spent(s'.audit, ForSession(id)) == Spent(s.audit, ForSession(id))
  {
    var th := s.threads[tid];
    ActionsAfterTouch(s, th.call, Denied, false, id);
    ActionsAfterTouch(s, th.call, Completed, false, id);
    ActionsAfterTouch(s, th.call, Phase.Failed, false, id);
    SpentAppend(s.audit, Event(tid, Deny, false, Some(th.call), Some(th.ctx)), ForSession(id));
    SpentAppend(s.audit, Event(tid, Allow, true, Some(th.call), Some(th.ctx)), ForSession(id));
  }

  lemma SessionsAfterEarlyStep(env: Env, s: State, step: Step, id: string)
    requires Enabled(s, step)
    requires step.Begin? || step.CheckRevocation? || step.BindApproval? || step.ReadCount?
    ensures var s' := Next(env, s, step);
            Actions(s'.sessions, id) == Actions(s.sessions, id) && Spent(s'.audit, ForSession(id)) == Spent(s.audit, ForSession(id))
  {
    EarlyStepAdvances(env, s, step);
    var s' := Next(env, s, step);
    if |s'.audit| > |s.audit| { SpentAppend(s.audit, s'.audit[|s.audit|], ForSession(id)); }
  }

  lemma SessionsAfterCompletion(env: Env, s: State, tid: nat, id: string)
    requires Enabled(s, AdapterOk(tid)) && id != ""
    ensures var s' := Next(env, s, AdapterOk(tid));
            Actions(s'.sessions, id) - Actions(s.sessions, id) == Spent(s'.audit, ForSession(id)) - Spent(s.audit, ForSession(id))
  {
    var th := s.threads[tid];
    ActionsAfterTouch(s, th.call, Completed, true, id);
    SpentAppend(s.audit, Event(tid, Allow, false, Some(th.call), Some(th.ctx)), ForSession(id));
  }

  lemma SessionsAfterEvaluate(env: Env, s: State, tid: nat, call: Call, ctx: Context, approvalId: string, now: int, id: string)
    requires id != ""
    ensures var s' := DoEvaluate(env, s, tid, call, ctx, approvalId, now);
            Actions(s'.sessions, id) == Actions(s.sessions, id) && Spent(s'.audit, ForSession(id)) == Spent(s.audit, ForSession(id))
  {
    SpentAppend(s.audit, Event(tid, Deny, false, Some(call), None), ForSession(id));
    var policy := PolicyFor(env, s.versions, call.claims);
    if policy.Some? {
      var e := env.engine.evaluate(policy.value.doc, ctx);
      SessionsAfterDecide(Resolving(env, s, call.claims), tid, call, ctx, VerdictOf(e, ctx.simulate), ReasonOf(e), approvalId, now, id);
    }
  }

  lemma SessionsAfterStep(env: Env, s: State, step: Step, id: string)
    requires Enabled(s, step) && id != ""
    ensures var s' := Next(env, s, step);
            Actions(s'.sessions, id) - Actions(s.sessions, id) == Spent(s'.audit, ForSession(id)) - Spent(s.audit, ForSession(id))
  {
    match step
    case Record(tid) => SessionsAfterRecord(s, tid, id);
    case Decide(tid, hour, approvalId, now) =>
      SessionsAfterEvaluate(env, s, tid, s.threads[tid].call, ContextOf(s.threads[tid].call, s.threads[tid].count, hour),
                            approvalId, now, id);
    case AdapterOk(tid) => SessionsAfterCompletion(env, s, tid, id);
    case Begin(_, _, _) => SessionsAfterEarlyStep(env, s, step, id);
    case CheckRevocation(_) => SessionsAfterEarlyStep(env, s, step, id);
    case BindApproval(_) => SessionsAfterEarlyStep(env, s, step, id);
    case ReadCount(_) => SessionsAfterEarlyStep(env, s, step, id);
    case _ =>
  }

  lemma StepKeepsSessions(env: Env, s: State, step: Step)
    requires Enabled(s, step) && SessionsAgree(s)
    ensures SessionsAgree(Next(env, s, step))
  {
    forall id | id != "" ensures Actions(Next(env, s, step).sessions, id) == Spent(Next(env, s, step).audit, ForSession(id)) {
      SessionsAfterStep(env, s, step, id);
    }
  }

  lemma StepKeepsQuota(env: Env, s: State, step: Step)
    requires Enabled(s, step) && QuotaInvariant(env, s) && UniqueIds(env)
    ensures QuotaInvariant(env, Next(env, s, step))
  {
    StepKeepsGenuine(env, s, step);
    StepKeepsLedger(env, s, step);
    StepKeepsLimits(env, s, step);
    StepKeepsSessions(env, s, step);
  }

  lemma {:induction false} RunKeepsQuota(env: Env, s: State, steps: seq<Step>)
    requires IsRun(env, s, steps) && QuotaInvariant(env, s) && UniqueIds(env)
    ensures QuotaInvariant(env, After(env, s, steps))
    decreases |steps|
  {
    if steps != [] {
      StepKeepsQuota(env, s, steps[0]);
      RunKeepsQuota(env, Next(env, s, steps[0]), steps[1..]);
    }
  }

  lemma InitialQuota(env: Env)
    ensures QuotaInvariant(env, Initial())
  {
    forall tag: Tag ensures Used(Initial(), tag) == 0 {
      assert Holders(Initial().threads, tag) == {};
    }
  }

  // ---------------------------------------------------------------- main results

  /** Over every interleaving, completed actions and reservations in flight together stay within each token's limit. */
  lemma QuotaHoldsOverAllRuns(env: Env, steps: seq<Step>, token: string)
    requires UniqueIds(env) && IsRun(env, Initial(), steps)
    requires token in env.tokens && ValidClaims(env.tokens[token])
    ensures var s := After(env, Initial(), steps); var jti := env.tokens[token].jti;
            && Count(s.ledger, jti) == |Holders(s.threads, ForToken(jti))| + Spent(s.audit, ForToken(jti))
            && (LimitOf(env.tokens[token]).Some? ==> Spent(s.audit, ForToken(jti)) <= LimitOf(env.tokens[token]).value)
            && (LimitOf(env.tokens[token]).Some? ==> Count(s.ledger, jti) <= LimitOf(env.tokens[token]).value)
  {
    InitialQuota(env);
    RunKeepsQuota(env, Initial(), steps);
  }

  /** Over every interleaving a request id completes at most once and never while another holder is in flight. */
  lemma RequestsCompleteAtMostOnce(env: Env, steps: seq<Step>, jti: string, r: string)
    requires UniqueIds(env) && IsRun(env, Initial(), steps) && r != ""
    ensures var s := After(env, Initial(), steps); var tag := ForRequest(jti, r);
            && |Holders(s.threads, tag)| + Spent(s.audit, tag) <= 1
            && (r in RequestsOf(s.ledger, jti) <==> |Holders(s.threads, tag)| + Spent(s.audit, tag) == 1)
  {
    InitialQuota(env);
    RunKeepsQuota(env, Initial(), steps);
  }

  /** A failed attempt gives its request id back: after the release nothing holds it and it may be reserved again. */
  lemma FailureFreesTheRequest(env: Env, steps: seq<Step>, tid: nat)
    requires UniqueIds(env) && IsRun(env, Initial(), steps)
    requires var s := After(env, Initial(), steps);
             Enabled(s, ReleaseReservation(tid)) && Tracked(s.threads[tid].call.input.requestId)
    ensures var s := After(env, Initial(), steps); var call := s.threads[tid].call;
            var s' := Next(env, s, ReleaseReservation(tid));
            && Used(s', ForRequest(call.claims.jti, call.input.requestId.value)) == 0
            && !Reserve(s'.ledger, call.claims.jti, LimitOf(call.claims), call.input.requestId).1.replay
            && Reserve(s'.ledger, call.claims.jti, LimitOf(call.claims), call.input.requestId).1.allowed
  {
    InitialQuota(env);
    RunKeepsQuota(env, Initial(), steps);
    var s := After(env, Initial(), steps);
    ReleaseAlwaysFindsACount(env, s, tid);
    StepKeepsQuota(env, s, ReleaseReservation(tid));
    assert Genuine(env, s.threads[tid].call);
  }

  predicate Quiet(s: State) {
    forall t :: t in s.threads ==> s.threads[t].Done?
  }

  /** When nothing is in flight the ledger counts exactly the completed actions, whatever was refused, replayed or failed on the way. */
  lemma QuietLedgerCountsCompletions(env: Env, steps: seq<Step>, jti: string)
    requires UniqueIds(env) && IsRun(env, Initial(), steps) && Quiet(After(env, Initial(), steps))
    ensures Count(After(env, Initial(), steps).ledger, jti) == Spent(After(env, Initial(), steps).audit, ForToken(jti))
  {
    InitialQuota(env);
    RunKeepsQuota(env, Initial(), steps);
    assert Holders(After(env, Initial(), steps).threads, ForToken(jti)) == {};
  }
}
