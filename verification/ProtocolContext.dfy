/** Where the context of a verdict comes from: the ledger as the execution read it, and the hour it was decided in. */
module ProtocolContext {
  import opened Prelude
  import opened Policy
  import opened Tokens
  import opened Ledgers
  import opened Protocol
  import opened ProtocolSafety

  predicate DecidedAt(steps: seq<Step>, tid: nat, hour: int) {
    exists step :: step in steps && step.Decide? && step.tid == tid && step.hour == hour
  }

  /** At some point of the run the execution read the ledger's count, and later it was decided in this context. */
  predicate JudgedIn(env: Env, s: State, steps: seq<Step>, tid: nat, call: Call, ctx: Context)
    requires IsRun(env, s, steps)
    decreases |steps|
  {
    steps != [] &&
    (|| (&& steps[0] == ReadCount(tid) && DecidedAt(steps[1..], tid, ctx.hour)
         && ctx == ContextOf(call, Count(s.ledger, call.claims.jti), ctx.hour))
     || JudgedIn(env, Next(env, s, steps[0]), steps[1..], tid, call, ctx))
  }

  /** Where an execution's context stands before a run that ends with it on record. */
  predicate Accounted(env: Env, s: State, steps: seq<Step>, tid: nat, call: Call, ctx: Context)
    requires IsRun(env, s, steps)
  {
    || InContext(s, tid, call, ctx)
    || (AboutToDecide(s, tid, call, ctx) && DecidedAt(steps, tid, ctx.hour))
    || JudgedIn(env, s, steps, tid, call, ctx)
  }

  predicate InContext(s: State, tid: nat, call: Call, ctx: Context) {
    tid in s.threads && PastDecision(s.threads[tid]) && s.threads[tid].call == call && s.threads[tid].ctx == ctx
  }

  predicate AboutToDecide(s: State, tid: nat, call: Call, ctx: Context) {
    tid in s.threads && s.threads[tid].Counted? && s.threads[tid].call == call
    && ctx == ContextOf(call, s.threads[tid].count, ctx.hour)
  }

  /** The execution was in this context before the step, or the step decided it there. */
  predicate FromBefore(s: State, step: Step, tid: nat, call: Call, ctx: Context) {
    InContext(s, tid, call, ctx)
    || (AboutToDecide(s, tid, call, ctx) && step.Decide? && step.tid == tid && step.hour == ctx.hour)
  }

  /** What a step does to contexts: one on a thread or a new event comes from before, one about to be decided from a read. */
  ghost predicate Traces(s: State, step: Step, s': State) {
    && (forall tid, call, ctx :: InContext(s', tid, call, ctx) ==> FromBefore(s, step, tid, call, ctx))
    && (forall tid, call, ctx :: AboutToDecide(s', tid, call, ctx) ==>
          AboutToDecide(s, tid, call, ctx)
          || (step == ReadCount(tid) && ctx == ContextOf(call, Count(s.ledger, call.claims.jti), ctx.hour)))
    && |s.audit| <= |s'.audit| <= |s.audit| + 1 && s'.audit[..|s.audit|] == s.audit
    && (|s'.audit| > |s.audit| ==>
          var e := s'.audit[|s.audit|];
          e.ctx.Some? ==> e.call.Some? && FromBefore(s, step, e.tid, e.call.value, e.ctx.value))
  }

  lemma MoveTraces(s: State, step: Step, s': State, tid: nat, th: Thread)
    requires s'.threads == s.threads[tid := th] && s'.audit == s.audit
    requires PastDecision(th) ==> FromBefore(s, step, tid, th.call, th.ctx)
    requires th.Counted? ==> step == ReadCount(tid) && th.count == Count(s.ledger, th.call.claims.jti)
    ensures Traces(s, step, s')
  {
  }

  lemma EndTraces(s: State, step: Step, s': State, tid: nat, e: Event)
    requires e.tid == tid && s'.threads == s.threads[tid := Done(e.decision, |s.audit|, e.call)] && s'.audit == s.audit + [e]
    requires e.ctx.Some? ==> e.call.Some? && FromBefore(s, step, tid, e.call.value, e.ctx.value)
    ensures Traces(s, step, s')
  {
  }

  lemma DecideTraces(env: Env, s: State, step: Step)
    requires Enabled(s, step) && step.Decide?
    ensures Traces(s, step, Next(env, s, step))
  {
    var call, s' := s.threads[step.tid].call, Next(env, s, step);
    var ctx := ContextOf(call, s.threads[step.tid].count, step.hour);
    EvaluateShape(env, s, step.tid, call, ctx, step.approvalId, step.now);
    if s'.audit == s.audit {
      MoveTraces(s, step, s', step.tid, Consuming(call, ctx));
    } else {
      EndTraces(s, step, s', step.tid, s'.audit[|s.audit|]);
    }
  }

  lemma BeginTraces(env: Env, s: State, tid: nat, input: Input, now: int)
    requires tid !in s.threads
    ensures Traces(s, Begin(tid, input, now), DoBegin(env, s, tid, input, now))
  {
    var s' := DoBegin(env, s, tid, input, now);
    if s'.audit == s.audit {
      MoveTraces(s, Begin(tid, input, now), s', tid, s'.threads[tid]);
    } else {
      EndTraces(s, Begin(tid, input, now), s', tid, Event(tid, Deny, false, None, None));
    }
  }

  lemma BindTraces(s: State, tid: nat, call: Call)
    ensures Traces(s, BindApproval(tid), DoBind(s, tid, call))
  {
    var s' := DoBind(s, tid, call);
    if s'.audit == s.audit {
      MoveTraces(s, BindApproval(tid), s', tid, s'.threads[tid]);
    } else {
      EndTraces(s, BindApproval(tid), s', tid, Event(tid, Deny, false, Some(call), None));
    }
  }

  /** Before the verdict there is no context, and only reading the count makes one up. */
  lemma EarlyTraces(env: Env, s: State, step: Step)
    requires Enabled(s, step) && Early(step)
    ensures Traces(s, step, Next(env, s, step))
  {
    var s' := Next(env, s, step);
    match step
    case Begin(tid, input, now) => BeginTraces(env, s, tid, input, now);
    case BindApproval(tid) => BindTraces(s, tid, s.threads[tid].call);
    case ReadCount(tid) => MoveTraces(s, step, s', tid, s'.threads[tid]);
    case CheckRevocation(tid) =>
      if s'.audit == s.audit {
        MoveTraces(s, step, s', tid, Cleared(s.threads[tid].call));
      } else {
        EndTraces(s, step, s', tid, Event(tid, Deny, false, Some(s.threads[tid].call), None));
      }
  }

  lemma LateTraces(env: Env, s: State, step: Step)
    requires Enabled(s, step) && Late(step)
    ensures Traces(s, step, Next(env, s, step))
  {
    var s', th := Next(env, s, step), s.threads[step.tid];
    LateStepShape(env, s, step);
    if step.AdapterOk? {
      EndTraces(s, step, s', step.tid, Event(step.tid, Allow, false, Some(th.call), Some(th.ctx)));
    } else {
      MoveTraces(s, step, s', step.tid, s'.threads[step.tid]);
    }
  }

  lemma RecordTraces(env: Env, s: State, step: Step)
    requires Enabled(s, step) && step.Record?
    ensures Traces(s, step, Next(env, s, step))
  {
    var s' := Next(env, s, step);
    RecordEnds(s, step.tid);
    EndTraces(s, step, s', step.tid, s'.audit[|s.audit|]);
  }

  lemma StepTraces(env: Env, s: State, step: Step)
    requires Enabled(s, step)
    ensures Traces(s, step, Next(env, s, step))
  {
    if Early(step) {
      EarlyTraces(env, s, step);
    } else if Late(step) {
      LateTraces(env, s, step);
    } else if step.Decide? {
      DecideTraces(env, s, step);
    } else if step.Record? {
      RecordTraces(env, s, step);
    }
  }

  lemma {:induction false} AuditOnlyGrows(env: Env, s: State, steps: seq<Step>)
    requires IsRun(env, s, steps)
    ensures |s.audit| <= |After(env, s, steps).audit| && After(env, s, steps).audit[..|s.audit|] == s.audit
    decreases |steps|
  {
    if steps != [] {
      StepTraces(env, s, steps[0]);
      AuditOnlyGrows(env, Next(env, s, steps[0]), steps[1..]);
      assert s.audit == Next(env, s, steps[0]).audit[..|s.audit|];
    }
  }

  /** What a run accounts for from its second state on, it accounts for from the first. */
  lemma AccountedBefore(env: Env, s: State, steps: seq<Step>, tid: nat, call: Call, ctx: Context)
    requires IsRun(env, s, steps) && steps != [] && Traces(s, steps[0], Next(env, s, steps[0]))
    requires Accounted(env, Next(env, s, steps[0]), steps[1..], tid, call, ctx)
    ensures Accounted(env, s, steps, tid, call, ctx)
  {
    assert steps[0] in steps && forall step :: step in steps[1..] ==> step in steps;
    var s' := Next(env, s, steps[0]);
    if AboutToDecide(s', tid, call, ctx) && DecidedAt(steps[1..], tid, ctx.hour) {
      var step :| step in steps[1..] && step.Decide? && step.tid == tid && step.hour == ctx.hour;
      assert DecidedAt(steps, tid, ctx.hour);
    } else if InContext(s', tid, call, ctx) {
      assert FromBefore(s, steps[0], tid, call, ctx);
    }
  }

  lemma {:induction false} EventsAreAccounted(env: Env, s: State, steps: seq<Step>, i: nat)
    requires IsRun(env, s, steps) && |s.audit| <= i < |After(env, s, steps).audit|
    requires After(env, s, steps).audit[i].ctx.Some?
    ensures var e := After(env, s, steps).audit[i];
            e.call.Some? && Accounted(env, s, steps, e.tid, e.call.value, e.ctx.value)
    decreases |steps|
  {
    var s' := Next(env, s, steps[0]);
    var e := After(env, s, steps).audit[i];
    StepTraces(env, s, steps[0]);
    if i < |s'.audit| {
      AuditOnlyGrows(env, s', steps[1..]);
      assert e == s'.audit[|s.audit|];
      assert FromBefore(s, steps[0], e.tid, e.call.value, e.ctx.value) && steps[0] in steps;
    } else {
      EventsAreAccounted(env, s', steps[1..], i);
      AccountedBefore(env, s, steps, e.tid, e.call.value, e.ctx.value);
    }
  }

  lemma {:induction false} JudgedShowsTheCall(env: Env, s: State, steps: seq<Step>, tid: nat, call: Call, ctx: Context)
    requires IsRun(env, s, steps) && JudgedIn(env, s, steps, tid, call, ctx)
    ensures ctx.payload == call.input.payload && ctx.simulate == call.input.simulate && ctx.approvalGranted == call.granted
    ensures ctx.tool == call.claims.tool
    ensures call.input.intent.Some? ==> ctx.intent == Normalized(call.input.intent)
    ensures call.input.intent.None? ==> ctx.intent == Normalized(call.claims.intent)
    decreases |steps|
  {
    if JudgedIn(env, Next(env, s, steps[0]), steps[1..], tid, call, ctx) {
      JudgedShowsTheCall(env, Next(env, s, steps[0]), steps[1..], tid, call, ctx);
    }
  }

  /** Every verdict on record was given in the context of its call, with the count the execution had read from the ledger. */
  lemma EveryVerdictHasItsContext(env: Env, steps: seq<Step>, i: nat)
    requires IsRun(env, Initial(), steps) && i < |After(env, Initial(), steps).audit|
    requires After(env, Initial(), steps).audit[i].ctx.Some?
    ensures var e := After(env, Initial(), steps).audit[i];
            e.call.Some? && JudgedIn(env, Initial(), steps, e.tid, e.call.value, e.ctx.value)
    ensures var e := After(env, Initial(), steps).audit[i]; var input, ctx := e.call.value.input, e.ctx.value;
            && ctx.payload == input.payload && ctx.simulate == input.simulate && ctx.approvalGranted == e.call.value.granted
            && ctx.tool == e.call.value.claims.tool
            && (input.intent.Some? ==> ctx.intent == Normalized(input.intent))
            && (input.intent.None? ==> ctx.intent == Normalized(e.call.value.claims.intent))
  {
    EventsAreAccounted(env, Initial(), steps, i);
    var e := After(env, Initial(), steps).audit[i];
    JudgedShowsTheCall(env, Initial(), steps, e.tid, e.call.value, e.ctx.value);
  }
}
