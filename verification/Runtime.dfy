/** The runtime object, one call at a time: every execution it performs is a run of the protocol. */
module Runtime {
  import opened Prelude
  import opened Policy
  import opened Tokens
  import opened Ledgers
  import opened Approvals
  import opened Sessions
  import opened Versions
  import opened Protocol
  import opened ProtocolQuota
  import opened ProtocolSafety
  import opened Outcomes

  class AgentCapabilityRuntime {
    const env: Env
    const consumption: ConsumptionLedger
    const approvals: InMemoryApprovalStore
    const sessions: InMemoryExecutionSessionStore
    const policies: PolicyVersionRegistry
    var revoked: set<string>
    var audit: seq<Event>
    ghost var threads: map<nat, Thread>
    var nextTid: nat

    ghost function View(): State
      reads this, consumption, approvals, sessions, policies
    {
      State(consumption.View(), approvals.requests, policies.versions, revoked, audit, sessions.sessions, threads)
    }

    ghost function Known(): Facts
      reads this, consumption, approvals, policies
    {
      Facts(env, consumption.View(), approvals.requests, policies.versions, revoked)
    }

    ghost predicate Valid()
      reads this, consumption, approvals, sessions, policies
    {
      && approvals.Valid() && UniqueIds(env) && policies.engine == env.engine
      && QuotaInvariant(env, View()) && SafetyInvariant(env, View()) && Quiet(View())
      && forall t :: t in threads ==> t < nextTid
    }

    constructor (env: Env)
      requires UniqueIds(env)
      ensures Valid() && View() == Initial() && this.env == env
      ensures fresh(consumption) && fresh(approvals) && fresh(sessions) && fresh(policies)
    {
      this.env := env;
      consumption := new ConsumptionLedger();
      approvals := new InMemoryApprovalStore();
      sessions := new InMemoryExecutionSessionStore();
      policies := new PolicyVersionRegistry(env.engine);
      revoked, audit, threads, nextTid := {}, [], map[], 0;
      new;
      InitialQuota(env);
    }

    method RecordAudit(tid: nat, decision: Decision, replay: bool, call: Option<Call>, ctx: Option<Context>)
      modifies this`audit, this`threads
      ensures View() == Finish(old(View()), tid, decision, replay, call, ctx)
    {
      threads := threads[tid := Done(decision, |audit|, call)];
      audit := audit + [Event(tid, decision, replay, call, ctx)];
    }

    /** Reports to the session, at whatever time the clock shows. */
    method Touch(call: Call, phase: Phase, increment: bool)
      modifies sessions
      ensures View() == TouchSession(old(View()), call, phase, increment)
    {
      if call.input.sessionId.Some? && call.input.sessionId.value != "" {
        var now: int := *;
        var _, _ := sessions.Touch(TouchOf(call, phase, increment), now);
      }
    }

    /** The consume call, as one step. */
    method Hold(tid: nat, call: Call, ctx: Context) returns (consumed: Consumed)
      requires tid in threads && threads[tid] == Consuming(call, ctx)
      modifies this`threads, consumption
      ensures View() == Next(env, old(View()), Consume(tid))
      ensures consumed == Reserve(old(consumption.View()), call.claims.jti, LimitOf(call.claims), call.input.requestId).1
    {
      consumed := consumption.TryConsume(call.claims.jti, LimitOf(call.claims), call.input.requestId);
      threads := threads[tid := if !consumed.allowed then Refused(call, ctx)
                                else if consumed.replay then Replayed(call, ctx) else Running(call, ctx)];
    }

    /** Records a refusal or a replay. */
    method Answer(tid: nat, call: Call, ctx: Context, replay: bool)
      requires tid in threads && threads[tid] == if replay then Replayed(call, ctx) else Refused(call, ctx)
      modifies this`audit, this`threads, sessions
      ensures View() == Next(env, old(View()), Record(tid))
    {
      if replay {
        Touch(call, Completed, false);
        RecordAudit(tid, Allow, true, Some(call), Some(ctx));
      } else {
        Touch(call, Denied, false);
        RecordAudit(tid, Deny, false, Some(call), Some(ctx));
      }
    }

    method Complete(tid: nat, call: Call, ctx: Context)
      requires tid in threads && threads[tid] == Running(call, ctx)
      modifies this`audit, this`threads, sessions
      ensures View() == Next(env, old(View()), AdapterOk(tid))
    {
      Touch(call, Completed, true);
      RecordAudit(tid, Allow, false, Some(call), Some(ctx));
    }

    /** The adapter's part: the action completes, or fails and gives its reservation back. */
    method Perform(tid: nat, call: Call, ctx: Context, succeeds: bool) returns (ghost path: Path)
      requires tid in threads && threads[tid] == Running(call, ctx)
      modifies this`audit, this`threads, consumption, sessions
      ensures Leads(env, old(View()), path, View())
      ensures consumption.View() == if succeeds then old(consumption.View())
                                    else Unreserve(old(consumption.View()), call.claims.jti, call.input.requestId)
      ensures EndedWith(old(View()), tid, if succeeds then Allow else Deny, false, call, ctx)
    {
      if succeeds {
        OneLeads(env, View(), AdapterOk(tid));
        path := One(View(), AdapterOk(tid), Next(env, View(), AdapterOk(tid)));
        Complete(tid, call, ctx);
      } else {
        path := Undo(tid, call, ctx);
      }
    }

    ghost predicate EndedWith(before: State, tid: nat, decision: Decision, replay: bool, call: Call, ctx: Context)
      reads this
    {
      && threads == before.threads[tid := Done(decision, |before.audit|, Some(call))]
      && audit == before.audit + [Event(tid, decision, replay, Some(call), Some(ctx))]
    }

    /** What follows the consume call: the adapter, or the answer to a refusal or a replay. */
    method Follow(tid: nat, call: Call, ctx: Context, consumed: Consumed, w: World) returns (r: Outcome, ghost path: Path)
      requires tid in threads
      requires threads[tid] == if !consumed.allowed then Refused(call, ctx)
                               else if consumed.replay then Replayed(call, ctx) else Running(call, ctx)
      modifies this`audit, this`threads, consumption, sessions
      ensures Leads(env, old(View()), path, View())
      ensures EndedWith(old(View()), tid, r.decision, r.replayed, call, ctx)
      ensures (r.refusedByLedger <==> !consumed.allowed) && (r.replayed <==> consumed.allowed && consumed.replay)
      ensures consumption.View() == if r.adapterFailed
                then Unreserve(old(consumption.View()), call.claims.jti, call.input.requestId) else old(consumption.View())
      ensures r.decision == Allow <==> consumed.allowed && !r.adapterFailed
      ensures r.adapterFailed <==> consumed.allowed && !consumed.replay && !w.adapterSucceeds
      ensures r.decision == Allow || r.decision == Deny
    {
      if consumed.allowed && !consumed.replay {
        path := Perform(tid, call, ctx, w.adapterSucceeds);
        r := Outcome(if w.adapterSucceeds then Allow else Deny, false, false, !w.adapterSucceeds);
      } else {
        OneLeads(env, View(), Record(tid));
        path := One(View(), Record(tid), Next(env, View(), Record(tid)));
        Answer(tid, call, ctx, consumed.allowed && consumed.replay);
        r := Outcome(if consumed.allowed then Allow else Deny, !consumed.allowed, consumed.allowed && consumed.replay, false);
      }
    }

    /** From the consume call to the end: reservation, adapter, and release when the adapter fails. */
    method Act(tid: nat, call: Call, ctx: Context, w: World) returns (r: Outcome, ghost path: Path)
      requires tid in threads && threads[tid] == Consuming(call, ctx)
      modifies this`audit, this`threads, consumption, sessions
      ensures Leads(env, old(View()), path, View())
      ensures EndedWith(old(View()), tid, r.decision, r.replayed, call, ctx)
      ensures r == ActOutcome(old(consumption.View()), call, w)
      ensures r.decision != Allow || r.replayed ==> SameLedger(old(consumption.View()), consumption.View())
    {
      ghost var start := View();
      OneLeads(env, start, Consume(tid));
      var consumed := Hold(tid, call, ctx);
      ghost var held := View();
      ghost var rest;
      r, rest := Follow(tid, call, ctx, consumed, w);
      HeldThenLeft(start.ledger, call.claims.jti, LimitOf(call.claims), call.input.requestId, consumed, r, View().ledger);
      JoinLeads(env, start, One(start, Consume(tid), held), held, rest, View());
      path := Join(One(start, Consume(tid), held), rest);
    }

    method MarkFailing(tid: nat, call: Call, ctx: Context)
      requires tid in threads && threads[tid] == Running(call, ctx)
      modifies this`threads
      ensures View() == Next(env, old(View()), AdapterFail(tid))
      ensures threads == old(threads)[tid := Failing(call, ctx)]
    {
      threads := threads[tid := Failing(call, ctx)];
    }

    method GiveBack(tid: nat, call: Call, ctx: Context)
      requires tid in threads && threads[tid] == Failing(call, ctx)
      modifies this`threads, consumption
      ensures View() == Next(env, old(View()), ReleaseReservation(tid))
      ensures threads == old(threads)[tid := Thread.Failed(call, ctx)]
      ensures consumption.View() == Unreserve(old(consumption.View()), call.claims.jti, call.input.requestId)
    {
      consumption.Release(call.claims.jti, call.input.requestId);
      threads := threads[tid := Thread.Failed(call, ctx)];
    }

    method RecordFailure(tid: nat, call: Call, ctx: Context)
      requires tid in threads && threads[tid] == Thread.Failed(call, ctx)
      modifies this`audit, this`threads, sessions
      ensures View() == Next(env, old(View()), Record(tid))
      ensures EndedWith(old(View()), tid, Deny, false, call, ctx)
    {
      Touch(call, Phase.Failed, false);
      RecordAudit(tid, Deny, false, Some(call), Some(ctx));
    }

    method Settle(tid: nat, call: Call, ctx: Context) returns (ghost failed: State)
      requires tid in threads && threads[tid] == Failing(call, ctx)
      modifies this`audit, this`threads, consumption, sessions
      ensures failed == Next(env, old(View()), ReleaseReservation(tid)) && Enabled(failed, Record(tid))
      ensures View() == Next(env, failed, Record(tid))
      ensures consumption.View() == Unreserve(old(consumption.View()), call.claims.jti, call.input.requestId)
      ensures EndedWith(old(View()), tid, Deny, false, call, ctx)
    {
      GiveBack(tid, call, ctx);
      failed := View();
      RecordFailure(tid, call, ctx);
    }

    /** The failure path: give the reservation back, then record the denial. */
    method Undo(tid: nat, call: Call, ctx: Context) returns (ghost path: Path)
      requires tid in threads && threads[tid] == Running(call, ctx)
      modifies this`audit, this`threads, consumption, sessions
      ensures Leads(env, old(View()), path, View())
      ensures consumption.View() == Unreserve(old(consumption.View()), call.claims.jti, call.input.requestId)
      ensures EndedWith(old(View()), tid, Deny, false, call, ctx)
    {
      ghost var start := View();
      MarkFailing(tid, call, ctx);
      ghost var failing := View();
      ghost var failed := Settle(tid, call, ctx);
      path := ThreeSteps(env, start, AdapterFail(tid), failing, ReleaseReservation(tid), failed, Record(tid), View());
    }

    /** Files a request for approval. */
    method Ask(tid: nat, call: Call, ctx: Context, reason: Reason, w: World)
      requires approvals.Valid() && w.newApprovalId !in approvals.requests
      modifies this`audit, this`threads, sessions, approvals
      ensures approvals.Valid()
      ensures View() == DoDecide(old(View()), tid, call, ctx, RequireApproval, reason, w.newApprovalId, w.now)
    {
      Touch(call, ApprovalRequiredPhase, false);
      var auditId := |audit|;
      RecordAudit(tid, RequireApproval, false, Some(call), Some(ctx));
      var _ := approvals.Create(w.newApprovalId, call.claims.sub, call.claims.tool, call.input.token, call.input.payload,
                                reason, auditId, call.claims.jti, w.now);
    }

    /** Acts on a verdict: denial, a request for approval, a dry run's answer, or on to the ledger. */
    method ActOnVerdict(tid: nat, call: Call, ctx: Context, verdict: Decision, reason: Reason, w: World)
      requires approvals.Valid() && w.newApprovalId !in approvals.requests
      modifies this`audit, this`threads, sessions, approvals
      ensures approvals.Valid()
      ensures View() == DoDecide(old(View()), tid, call, ctx, verdict, reason, w.newApprovalId, w.now)
    {
      match verdict
      case Deny =>
        Touch(call, Denied, false);
        RecordAudit(tid, Deny, false, Some(call), Some(ctx));
      case RequireApproval => Ask(tid, call, ctx, reason, w);
      case Simulate =>
        Touch(call, Simulated, false);
        RecordAudit(tid, Simulate, false, Some(call), Some(ctx));
      case Allow =>
        if call.granted { Touch(call, ApprovedPhase, false); }
        Touch(call, Executing, false);
        threads := threads[tid := Consuming(call, ctx)];
    }

    method Measure(tid: nat, call: Call) returns (count: nat)
      requires tid in threads && threads[tid] == Bound(call)
      modifies this`threads
      ensures count == Count(consumption.View(), call.claims.jti)
      ensures Leads(env, old(View()), One(old(View()), ReadCount(tid), View()), View())
      ensures threads == old(threads)[tid := Counted(call, count)]
    {
      OneLeads(env, View(), ReadCount(tid));
      count := consumption.Get(call.claims.jti);
      threads := threads[tid := Counted(call, count)];
    }

    /** Finds the token's policy, evaluates it and acts on the verdict. */
    method Decide(tid: nat, call: Call, ctx: Context, w: World) returns (verdict: Option<Decision>)
      requires policies.engine == env.engine && approvals.Valid() && w.newApprovalId !in approvals.requests
      modifies this`audit, this`threads, sessions, approvals, policies
      ensures approvals.Valid()
      ensures View() == DoEvaluate(env, old(View()), tid, call, ctx, w.newApprovalId, w.now)
      ensures verdict == FoundVerdict(env, old(policies.versions), call.claims, ctx)
    {
      var policy := policies.ResolvePolicyDocument(call.claims.tool, Limits(call.claims), call.claims.policyVersionId);
      if policy.None? {
        RecordAudit(tid, Deny, false, Some(call), None);
        return None;
      }
      var e := env.engine.evaluate(policy.value.doc, ctx);
      var decision := if e.decision == Allow && ctx.simulate then Simulate else e.decision;
      ActOnVerdict(tid, call, ctx, decision, ReasonOf(e), w);
      verdict := Some(decision);
    }

    /** The decision as one step, and what it leaves. */
    method Conclude(tid: nat, call: Call, count: nat, w: World) returns (verdict: Option<Decision>, ctx: Context)
      requires tid in threads && threads[tid] == Counted(call, count) && count == Count(consumption.View(), call.claims.jti)
      requires policies.engine == env.engine && approvals.Valid() && w.newApprovalId !in approvals.requests
      modifies this`audit, this`threads, sessions, approvals, policies
      ensures approvals.Valid()
      ensures Leads(env, old(View()), One(old(View()), DecideStep(tid, w), View()), View())
      ensures DecidedFrom(old(View()), View(), tid, call, ctx, verdict)
      ensures verdict == VerdictFor(old(Known()), call, w)
    {
      ghost var start := View();
      OneLeads(env, start, DecideStep(tid, w));
      ctx := ContextOf(call, count, w.hour);
      EvaluateShape(env, start, tid, call, ctx, w.newApprovalId, w.now);
      verdict := Decide(tid, call, ctx, w);
    }

    /** Reads the count, then decides. */
    method Reach(tid: nat, call: Call, w: World) returns (verdict: Option<Decision>, ctx: Context, ghost path: Path)
      requires tid in threads && threads[tid] == Bound(call)
      requires policies.engine == env.engine && approvals.Valid() && w.newApprovalId !in approvals.requests
      modifies this`audit, this`threads, sessions, approvals, policies
      ensures approvals.Valid() && Leads(env, old(View()), path, View())
      ensures DecidedFrom(old(View()), View(), tid, call, ctx, verdict)
      ensures verdict == VerdictFor(old(Known()), call, w)
    {
      ghost var start := View();
      var count := Measure(tid, call);
      ghost var counted := View();
      verdict, ctx := Conclude(tid, call, count, w);
      path := Join(One(start, ReadCount(tid), counted), One(counted, DecideStep(tid, w), View()));
      JoinLeads(env, start, One(start, ReadCount(tid), counted), counted, One(counted, DecideStep(tid, w), View()), View());
    }

    /** Goes on from the verdict: to the ledger when it is ALLOW, or not at all. */
    method Continue(ghost start: State, ghost first: Path, tid: nat, call: Call, ctx: Context, verdict: Option<Decision>, w: World)
      returns (r: Outcome, ghost path: Path)
      requires Leads(env, start, first, View()) && DecidedFrom(start, View(), tid, call, ctx, verdict)
      modifies this`audit, this`threads, consumption, sessions
      ensures Performed(env, start, View(), tid, r, path)
      ensures r == OutcomeAfter(verdict, start.ledger, call, w)
    {
      if verdict == Some(Allow) {
        ghost var reached := View();
        ghost var rest;
        r, rest := Act(tid, call, ctx, w);
        JoinLeads(env, start, first, reached, rest, View());
        path := Join(first, rest);
      } else {
        r := Outcome(if verdict.Some? then verdict.value else Deny, false, false, false);
        path := first;
      }
    }

    method ExecuteWithClaims(tid: nat, call: Call, w: World) returns (r: Outcome, ghost path: Path)
      requires tid in threads && threads[tid] == Bound(call)
      requires policies.engine == env.engine && approvals.Valid() && w.newApprovalId !in approvals.requests
      modifies this`audit, this`threads, consumption, sessions, approvals, policies
      ensures approvals.Valid() && Performed(env, old(View()), View(), tid, r, path)
      ensures r == ClaimsOutcome(old(Known()), call, w)
    {
      ghost var start := View();
      var verdict, ctx, first := Reach(tid, call, w);
      r, path := Continue(start, first, tid, call, ctx, verdict, w);
    }

    method Begun(tid: nat, input: Input, w: World) returns (call: Option<Call>)
      requires tid !in threads
      modifies this`audit, this`threads
      ensures call == Validated(env, input, w.now)
      ensures call.Some? ==> MovedOn(env, old(View()), Begin(tid, input, w.now), View(), tid, Checking(call.value))
      ensures call.None? ==> TurnedAway(env, old(View()), Begin(tid, input, w.now), View(), tid, None)
      ensures call.Some? ==> tid in threads && threads[tid] == Checking(call.value)
    {
      OneLeads(env, View(), Begin(tid, input, w.now));
      var validation := Validate(Decode(env, input.token), w.now, env.issuer, Some(input.tool));
      if validation.Failure? {
        RecordAudit(tid, Deny, false, None, None);
        return None;
      }
      call := Some(Call(input, validation.value, false));
      threads := threads[tid := Checking(call.value)];
    }

    method CheckRevoked(tid: nat, call: Call) returns (live: bool)
      requires tid in threads && threads[tid] == Checking(call)
      modifies this`audit, this`threads
      ensures live <==> call.claims.jti !in revoked
      ensures live ==> MovedOn(env, old(View()), CheckRevocation(tid), View(), tid, Cleared(call))
      ensures !live ==> TurnedAway(env, old(View()), CheckRevocation(tid), View(), tid, Some(call))
      ensures live ==> tid in threads && threads[tid] == Cleared(call)
    {
      OneLeads(env, View(), CheckRevocation(tid));
      live := call.claims.jti !in revoked;
      if live {
        threads := threads[tid := Cleared(call)];
      } else {
        RecordAudit(tid, Deny, false, Some(call), None);
      }
    }

    /** Looks the named approval up and binds it when it covers this execution. */
    method Bind(tid: nat, bare: Call) returns (call: Option<Call>)
      requires tid in threads && threads[tid] == Cleared(bare)
      modifies this`audit, this`threads
      ensures call == BoundCall(approvals.requests, bare)
      ensures call.Some? ==> MovedOn(env, old(View()), BindApproval(tid), View(), tid, Bound(call.value))
      ensures call.None? ==> TurnedAway(env, old(View()), BindApproval(tid), View(), tid, Some(bare))
      ensures call.Some? ==> tid in threads && threads[tid] == Bound(call.value)
    {
      OneLeads(env, View(), BindApproval(tid));
      var id := bare.input.approvalId;
      if id.Some? && id.value != "" {
        if id.value !in approvals.requests
           || !Covers(approvals.requests[id.value], bare.input.token, bare.input.tool, bare.input.payload) {
          RecordAudit(tid, Deny, false, Some(bare), None);
          return None;
        }
        threads := threads[tid := Bound(bare.(granted := true))];
        return Some(bare.(granted := true));
      }
      threads := threads[tid := Bound(bare)];
      call := Some(bare);
    }

    /** Past admission: bind an approval, then execute with the token's claims. */
    method Proceed(tid: nat, bare: Call, w: World) returns (r: Outcome, ghost path: Path)
      requires tid in threads && threads[tid] == Cleared(bare)
      requires policies.engine == env.engine && approvals.Valid() && w.newApprovalId !in approvals.requests
      modifies this`audit, this`threads, consumption, sessions, approvals, policies
      ensures approvals.Valid() && Performed(env, old(View()), View(), tid, r, path)
      ensures r == BindOutcome(old(Known()), bare, w)
    {
      ghost var start := View();
      var call := Bind(tid, bare);
      ghost var bound := View();
      if call.None? {
        TurnedAwayIsPerformed(env, start, BindApproval(tid), bound, tid, Some(bare));
        return Outcome(Deny, false, false, false), One(start, BindApproval(tid), bound);
      }
      ghost var rest;
      r, rest := ExecuteWithClaims(tid, call.value, w);
      MoveThenPerformed(env, start, BindApproval(tid), bound, View(), tid, Bound(call.value), r, rest);
      path := Join(One(start, BindApproval(tid), bound), rest);
    }

    /** Past validation: the revocation check, then the rest. */
    method Admitted(tid: nat, bare: Call, w: World) returns (r: Outcome, ghost path: Path)
      requires tid in threads && threads[tid] == Checking(bare)
      requires policies.engine == env.engine && approvals.Valid() && w.newApprovalId !in approvals.requests
      modifies this`audit, this`threads, consumption, sessions, approvals, policies
      ensures approvals.Valid() && Performed(env, old(View()), View(), tid, r, path)
      ensures r == AdmittedOutcome(old(Known()), bare, w)
    {
      ghost var start := View();
      var live := CheckRevoked(tid, bare);
      ghost var checked := View();
      if !live {
        TurnedAwayIsPerformed(env, start, CheckRevocation(tid), checked, tid, Some(bare));
        return Outcome(Deny, false, false, false), One(start, CheckRevocation(tid), checked);
      }
      ghost var rest;
      r, rest := Proceed(tid, bare, w);
      MoveThenPerformed(env, start, CheckRevocation(tid), checked, View(), tid, Cleared(bare), r, rest);
      path := Join(One(start, CheckRevocation(tid), checked), rest);
    }

    /** The execution itself, from the first check to the recorded decision. */
    method Run(tid: nat, input: Input, w: World) returns (r: Outcome, ghost path: Path)
      requires tid !in threads
      requires policies.engine == env.engine && approvals.Valid() && w.newApprovalId !in approvals.requests
      modifies this`audit, this`threads, consumption, sessions, approvals, policies
      ensures approvals.Valid() && Performed(env, old(View()), View(), tid, r, path)
      ensures r == OutcomeOf(old(Known()), input, w)
    {
      ghost var start := View();
      var call := Begun(tid, input, w);
      ghost var begun := View();
      if call.None? {
        TurnedAwayIsPerformed(env, start, Begin(tid, input, w.now), begun, tid, None);
        return Outcome(Deny, false, false, false), One(start, Begin(tid, input, w.now), begun);
      }
      ghost var rest;
      r, rest := Admitted(tid, call.value, w);
      MoveThenPerformed(env, start, Begin(tid, input, w.now), begun, View(), tid, Checking(call.value), r, rest);
      path := Join(One(start, Begin(tid, input, w.now), begun), rest);
    }

    /**
     * One execution, start to end. It returns what the state calls for, is a run of the protocol by a new thread, writes
     * one audit event with the decision it returns, and leaves the ledger alone unless it completed a new action.
     */
    method Execute(input: Input, w: World) returns (r: Outcome, ghost steps: seq<Step>)
      requires Valid() && w.newApprovalId !in approvals.requests
      modifies this, consumption, sessions, approvals, policies
      ensures Valid()
      ensures r == OutcomeOf(old(Known()), input, w)
      ensures IsRun(env, old(View()), steps) && After(env, old(View()), steps) == View()
      ensures |audit| == |old(audit)| + 1 && audit[..|old(audit)|] == old(audit) && audit[|old(audit)|].decision == r.decision
      ensures r.decision != Allow || r.replayed ==> SameLedger(old(consumption.View()), consumption.View())
    {
      var tid := nextTid;
      nextTid := nextTid + 1;
      ghost var start := View();
      ghost var path;
      r, path := Run(tid, input, w);
      steps := path.steps;
      PerformedKeepsInvariants(env, start, View(), tid, r, path);
      PerformedStaysQuiet(start, View(), tid, r.decision, nextTid);
    }

    /** Registers the constraints as the caller wrote them and grants a token stamped with their version id. */
    method Grant(input: GrantInput, w: Written, signerIssuer: Option<string>, now: int, jti: string)
      returns (r: Result<Claims, GrantError>)
      requires Valid() && WellWritten(w) && input.constraints == w.fields
      modifies policies
      ensures Valid() && View() == Next(env, old(View()), Register(input.tool, w))
      ensures r.Success? ==>
                r.value == Granted(input.(policyVersionId := Some(env.engine.written(input.tool, w).id)), signerIssuer, now, jti)
    {
      ghost var start := View();
      var id, _ := policies.Register(input.tool, w);
      StepKeepsQuota(env, start, Register(input.tool, w));
      StepKeepsSafety(env, start, Register(input.tool, w));
      r := GrantCapability(input.(policyVersionId := Some(id)), signerIssuer, now, jti);
    }

    /** Registers the constraints and delegates a stamped child of the parent token. */
    method Delegate(parent: string, input: GrantInput, w: Written, signer: Signer) returns (r: Result<Claims, GrantError>)
      requires Valid() && WellWritten(w) && input.constraints == w.fields
      modifies policies
      ensures Valid() && View() == Next(env, old(View()), Register(input.tool, w))
      ensures r.Success? ==>
                && parent in env.tokens
                && DelegatedBy(env.tokens[parent], input.(policyVersionId := Some(env.engine.written(input.tool, w).id)), signer, r.value)
    {
      ghost var start := View();
      var id, _ := policies.Register(input.tool, w);
      StepKeepsQuota(env, start, Register(input.tool, w));
      StepKeepsSafety(env, start, Register(input.tool, w));
      r := DelegateCapability(Decode(env, parent), input.(policyVersionId := Some(id)), signer);
    }

    method Approve(id: string, verdict: Status, now: int, resolver: Option<string>) returns (r: Result<Approval, ApprovalError>)
      requires Valid() && verdict != Pending
      modifies approvals
      ensures Valid() && View() == Next(env, old(View()), SettleApproval(id, verdict, now, resolver))
      ensures r.Success? <==> id in old(approvals.requests) && old(approvals.requests)[id].status == Pending
      ensures r.Success? ==> Bears(approvals.requests[id], old(approvals.requests)[id], verdict, now, resolver)
    {
      ghost var start := View();
      r := approvals.Settle(id, verdict, now, resolver);
      StepKeepsQuota(env, start, SettleApproval(id, verdict, now, resolver));
      StepKeepsSafety(env, start, SettleApproval(id, verdict, now, resolver));
    }

    method Revoke(jti: string)
      requires Valid()
      modifies this`revoked
      ensures Valid() && View() == Next(env, old(View()), Step.Revoke(jti))
    {
      ghost var start := View();
      revoked := revoked + {jti};
      StepKeepsQuota(env, start, Step.Revoke(jti));
      StepKeepsSafety(env, start, Step.Revoke(jti));
    }
  }
}
