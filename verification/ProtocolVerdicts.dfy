/** Whose word stands on an approval over whole runs: the first verdict given on it. */
module ProtocolVerdicts {
  import opened Prelude
  import opened Policy
  import opened Approvals
  import opened Protocol
  import opened ProtocolSafety

  /** The step is a verdict on a request that is on record. */
  predicate Settles(s: State, step: Step, id: string) {
    step.SettleApproval? && step.id == id && id in s.requests
  }

  /** The first verdict in the run on the request `id`. */
  function FirstVerdict(env: Env, s: State, steps: seq<Step>, id: string): Option<Status>
    requires IsRun(env, s, steps)
    decreases |steps|
  {
    if steps == [] then None
    else if Settles(s, steps[0], id) then Some(steps[0].verdict)
    else FirstVerdict(env, Next(env, s, steps[0]), steps[1..], id)
  }

  predicate StatusIn(s: State, id: string, status: Status) {
    id in s.requests && s.requests[id].status == status
  }

  predicate PendingOrNew(s: State, id: string) {
    id in s.requests ==> s.requests[id].status == Pending
  }

  /** The requests as they were, or with one more, pending, under this id. */
  predicate FiledAtMost(before: Requests, after: Requests, id: string) {
    after == before || (id in after && after[id].status == Pending && after == before[id := after[id]])
  }

  lemma VerdictFilesPending(s: State, tid: nat, call: Call, ctx: Context, verdict: Decision, reason: Reason, id: string, now: int)
    ensures FiledAtMost(s.requests, DoDecide(s, tid, call, ctx, verdict, reason, id, now).requests, id)
  {
  }

  /** Deciding files at most one request, pending. */
  lemma DecideFilesPending(env: Env, s: State, tid: nat, call: Call, ctx: Context, id: string, now: int)
    ensures FiledAtMost(s.requests, DoEvaluate(env, s, tid, call, ctx, id, now).requests, id)
  {
    var policy := PolicyFor(env, s.versions, call.claims);
    if policy.Some? {
      var e := env.engine.evaluate(policy.value.doc, ctx);
      VerdictFilesPending(Resolving(env, s, call.claims), tid, call, ctx, VerdictOf(e, ctx.simulate), ReasonOf(e), id, now);
    }
  }

  lemma BeginKeepsRequests(env: Env, s: State, tid: nat, input: Input, now: int)
    ensures DoBegin(env, s, tid, input, now).requests == s.requests
  {
  }

  lemma BindKeepsRequests(s: State, tid: nat, call: Call)
    ensures DoBind(s, tid, call).requests == s.requests
  {
  }

  /** No other step gives a verdict: what is on record keeps its status, and what is new is pending. */
  lemma OtherStepsKeepStatus(env: Env, s: State, step: Step, id: string)
    requires Enabled(s, step) && !Settles(s, step, id)
    ensures id in s.requests ==> StatusIn(Next(env, s, step), id, s.requests[id].status)
    ensures id !in s.requests ==> PendingOrNew(Next(env, s, step), id)
  {
    if step.Decide? {
      var call := s.threads[step.tid].call;
      DecideFilesPending(env, s, step.tid, call, ContextOf(call, s.threads[step.tid].count, step.hour), step.approvalId, step.now);
    } else if step.Begin? {
      BeginKeepsRequests(env, s, step.tid, step.input, step.now);
    } else if step.BindApproval? {
      BindKeepsRequests(s, step.tid, s.threads[step.tid].call);
    } else if Late(step) {
      LateStepShape(env, s, step);
    } else if step.Record? {
      RecordEnds(s, step.tid);
    }
  }

  /** A status other than pending stays. */
  lemma {:induction false} SettledStays(env: Env, s: State, steps: seq<Step>, id: string, status: Status)
    requires IsRun(env, s, steps) && StatusIn(s, id, status) && status != Pending
    ensures StatusIn(After(env, s, steps), id, status)
    decreases |steps|
  {
    if steps != [] {
      if !Settles(s, steps[0], id) { OtherStepsKeepStatus(env, s, steps[0], id); }
      SettledStays(env, Next(env, s, steps[0]), steps[1..], id, status);
    }
  }

  /** Over every run the status of a request is the first verdict given on it. */
  lemma {:induction false} StatusIsFirstVerdict(env: Env, s: State, steps: seq<Step>, id: string)
    requires IsRun(env, s, steps) && PendingOrNew(s, id)
    ensures var verdict := FirstVerdict(env, s, steps, id);
            && (verdict.Some? ==> StatusIn(After(env, s, steps), id, verdict.value))
            && (verdict.None? ==> PendingOrNew(After(env, s, steps), id))
    decreases |steps|
  {
    if steps != [] {
      var next := Next(env, s, steps[0]);
      if Settles(s, steps[0], id) {
        SettledStays(env, next, steps[1..], id, steps[0].verdict);
      } else {
        OtherStepsKeepStatus(env, s, steps[0], id);
        StatusIsFirstVerdict(env, next, steps[1..], id);
      }
    }
  }

  /**
   * A call that claims an approval names one that an earlier REQUIRE_APPROVAL event asked for, for the same token, tool and
   * payload, and the first verdict given on that request was an approval.
   */
  lemma EveryGrantWasApproved(env: Env, steps: seq<Step>, i: nat)
    requires IsRun(env, Initial(), steps)
    requires var s := After(env, Initial(), steps);
             i < |s.audit| && s.audit[i].call.Some? && s.audit[i].call.value.granted
    ensures var s := After(env, Initial(), steps); var call := s.audit[i].call.value;
            ApprovedBefore(s, call, i) && FirstVerdict(env, Initial(), steps, call.input.approvalId.value) == Some(Approved)
  {
    RunKeepsSafety(env, Initial(), steps);
    StatusIsFirstVerdict(env, Initial(), steps, After(env, Initial(), steps).audit[i].call.value.input.approvalId.value);
  }
}
