/** From the request for an approval to the execution that uses it: what a verdict is good for. */
module ApprovalRuns {
  import opened Prelude
  import opened Policy
  import opened PlainTerms
  import opened Tokens
  import opened Ledgers
  import opened Approvals
  import opened Versions
  import opened Protocol
  import opened ProtocolQuota
  import opened Outcomes
  import opened PlainOutcomes
  import opened Executions

  /** Asking files a pending request for this very token, tool and payload. */
  lemma AskingFiles(env: Env, s: State, tid: nat, call: Call, ctx: Context, id: string, now: int)
    requires FoundVerdict(env, s.versions, call.claims, ctx) == Some(RequireApproval)
    ensures var after := DoEvaluate(env, s, tid, call, ctx, id, now);
            && after.versions == AfterResolve(s.versions, OwnPolicy(env, call.claims), call.claims.policyVersionId)
            && id in after.requests && after.requests == s.requests[id := after.requests[id]]
            && var a := after.requests[id];
               && a.status == Pending && a.token == call.input.token && a.tool == call.claims.tool
               && a.payload == call.input.payload && a.agentId == call.claims.sub && a.jti == call.claims.jti && a.createdAt == now
               && a.auditId == |s.audit| && a.resolvedAt.None? && a.resolvedBy.None?
               && a.reason == ReasonOf(env.engine.evaluate(PolicyFor(env, s.versions, call.claims).value.doc, ctx))
  {
  }

  /** What an execution that asks for an approval leaves. */
  ghost predicate AskedFrom(env: Env, s: State, t: State, tid: nat, call: Call, ctx: Context, id: string) {
    && t.ledger == s.ledger && t.revoked == s.revoked
    && t.versions == AfterResolve(s.versions, OwnPolicy(env, call.claims), call.claims.policyVersionId)
    && t.threads == s.threads[tid := Done(RequireApproval, |s.audit|, Some(call))]
    && t.audit == s.audit + [Event(tid, RequireApproval, false, Some(call), Some(ctx))]
    && id in t.requests && t.requests == s.requests[id := t.requests[id]]
    && var a := t.requests[id];
       a.status == Pending && a.token == call.input.token && a.tool == call.claims.tool && a.payload == call.input.payload
  }

  lemma Asks(env: Env, s: State, tid: nat, input: Input, w: World) returns (p: Path, t: State)
    requires tid !in s.threads && Admissible(FactsIn(env, s), input, w) && w.newApprovalId !in s.requests
    requires VerdictFor(FactsIn(env, s), CallOf(FactsIn(env, s), input, w), w) == Some(RequireApproval)
    ensures var f := FactsIn(env, s); var call := CallOf(f, input, w);
            Leads(env, s, p, t) && AskedFrom(env, s, t, tid, call, ContextFor(f, call, w), w.newApprovalId)
  {
    var f := FactsIn(env, s);
    var call, ctx := CallOf(f, input, w), ContextFor(f, CallOf(f, input, w), w);
    var counted := Protocol.At(s, tid, Counted(call, Count(s.ledger, call.claims.jti)));
    p := ReachesCount(env, s, tid, input, w);
    DecidesAsRead(env, s, tid, input, w);
    p := ExtendPath(env, s, p, counted, DecideStep(tid, w));
    t := Next(env, counted, DecideStep(tid, w));
    AskingFiles(env, counted, tid, call, ctx, w.newApprovalId, w.now);
    assert counted.threads[tid := t.threads[tid]] == s.threads[tid := t.threads[tid]];
  }

  /** The same input, with the approval it was told to get. */
  function WithApproval(input: Input, id: string): Input {
    input.(approvalId := Some(id))
  }

  /** The state once the request has its verdict. */
  function Answered(s: State, id: string, verdict: Status, now: int, resolver: Option<string>): State {
    s.(requests := Resolved(s.requests, id, verdict, now, resolver))
  }

  /** With the approval bound, the call is judged by the policy it was judged by before. */
  lemma SamePolicyAgain(env: Env, hash: Text -> string, s: State, t: State, call: Call, again: Call, w: World)
    requires Outcomes.Sound(FactsIn(env, s), hash) && again.claims == call.claims && Genuine(env, again)
    requires t.ledger == s.ledger
    requires t.versions == AfterResolve(s.versions, OwnPolicy(env, call.claims), call.claims.policyVersionId)
    ensures VerdictFor(FactsIn(env, t), again, w) == VerdictFor(FactsIn(env, s), again, w)
  {
    ResolvingTwice(s.versions, OwnPolicy(env, call.claims), call.claims.policyVersionId);
  }

  /** The call that repeats the input with its approval. */
  function CallWith(env: Env, input: Input, id: string): Call
    requires input.token in env.tokens
  {
    Call(WithApproval(input, id), env.tokens[input.token], true)
  }

  /** Once approved, the repeated call is bound to the approval. */
  lemma ApprovedIsAdmitted(env: Env, s: State, mid: State, tid: nat, input: Input, ctx: Context, id: string, now: int,
                           resolver: Option<string>, again: World)
    requires TokenAdmits(env, s, input, again.now) && !NamesApproval(input) && id != ""
    requires AskedFrom(env, s, mid, tid, Call(input, env.tokens[input.token], false), ctx, id)
    ensures var t := Answered(mid, id, Approved, now, resolver);
            Admissible(FactsIn(env, t), WithApproval(input, id), again)
            && CallOf(FactsIn(env, t), WithApproval(input, id), again) == CallWith(env, input, id)
  {
  }

  lemma ApprovedIsAllowed(env: Env, hash: Text -> string, s: State, mid: State, tid: nat, input: Input, ctx: Context, id: string,
                          now: int, resolver: Option<string>, again: World)
    requires Outcomes.Sound(FactsIn(env, s), hash) && TokenAdmits(env, s, input, again.now) && !NamesApproval(input) && id != ""
    requires AskedFrom(env, s, mid, tid, Call(input, env.tokens[input.token], false), ctx, id)
    requires PolicyFor(env, s.versions, env.tokens[input.token]).Some? && !input.simulate && again.adapterSucceeds
    requires var claims := env.tokens[input.token];
             && Lets(claims.tool, FromJwt(claims.constraints), input.payload, Count(s.ledger, claims.jti), true, again.hour,
                     PurposeOf(input, claims))
             && !Remembered(s.ledger, claims.jti, input.requestId) && RoomLeft(s.ledger, claims)
    ensures var f := FactsIn(env, Answered(mid, id, Approved, now, resolver));
            && VerdictFor(f, CallWith(env, input, id), again) == Some(Allow)
            && OutcomeOf(f, WithApproval(input, id), again) == Outcome(Allow, false, false, false)
  {
    var call, t := CallWith(env, input, id), Answered(mid, id, Approved, now, resolver);
    ApprovedIsAdmitted(env, s, mid, tid, input, ctx, id, now, resolver, again);
    SamePolicyAgain(env, hash, s, t, Call(input, env.tokens[input.token], false), call, again);
    VerdictAllowsExactly(FactsIn(env, s), hash, call, again);
    PermitsIsLets(call.claims.tool, Limits(call.claims), ContextFor(FactsIn(env, s), call, again));
    OutcomeIsAdmitted(FactsIn(env, t), WithApproval(input, id), again);
  }

  /** The events of an execution that asked and of the same one repeated with the approval. */
  ghost predicate AskedThen(s: State, t: State, first: nat, second: nat, input: Input, id: string, decision: Decision) {
    && |t.audit| == |s.audit| + 2 && t.audit[..|s.audit|] == s.audit
    && var asked, answered := t.audit[|s.audit|], t.audit[|s.audit| + 1];
       && asked.tid == first && asked.decision == RequireApproval && asked.call.Some? && asked.call.value.input == input
       && answered.tid == second && answered.decision == decision && !answered.replay
       && answered.call.Some? && answered.call.value.input == WithApproval(input, id)
  }

  /** An execution that asked, and the verdict on what it asked. */
  lemma AskedAndAnswered(env: Env, s: State, first: nat, input: Input, w: World, verdict: Status, now: int, resolver: Option<string>)
    returns (p: Path, mid: State, ctx: Context)
    requires first !in s.threads && w.newApprovalId !in s.requests && !NamesApproval(input) && verdict != Pending
    requires OutcomeOf(FactsIn(env, s), input, w).decision == RequireApproval
    ensures input.token in env.tokens
    ensures AskedFrom(env, s, mid, first, Call(input, env.tokens[input.token], false), ctx, w.newApprovalId)
    ensures PolicyFor(env, s.versions, env.tokens[input.token]).Some?
    ensures Leads(env, s, p, Answered(mid, w.newApprovalId, verdict, now, resolver))
  {
    var f := FactsIn(env, s);
    OutcomeIsAdmitted(f, input, w);
    ctx := ContextFor(f, CallOf(f, input, w), w);
    p, mid := Asks(env, s, first, input, w);
    p := ExtendPath(env, s, p, mid, SettleApproval(w.newApprovalId, verdict, now, resolver));
  }

  lemma TwoEventsTell(s: State, mid: State, t: State, first: nat, second: nat, input: Input, asked: Event, answered: Event,
                      id: string)
    requires mid.audit == s.audit + [asked] && t.audit == mid.audit + [answered]
    requires asked.tid == first && asked.decision == RequireApproval && asked.call.Some? && asked.call.value.input == input
    requires answered.tid == second && !answered.replay
    requires answered.call.Some? && answered.call.value.input == WithApproval(input, id)
    ensures AskedThen(s, t, first, second, input, id, answered.decision)
  {
  }

  /** An admitted execution that is to be allowed, from the state its approval was settled in. */
  lemma ActsOnApproval(env: Env, s: State, tid: nat, input: Input, w: World) returns (p: Path, t: State, e: Event)
    requires tid !in s.threads && Admissible(FactsIn(env, s), input, w) && w.newApprovalId !in s.requests && w.adapterSucceeds
    requires OutcomeOf(FactsIn(env, s), input, w) == Outcome(Allow, false, false, false)
    ensures Leads(env, s, p, t) && t.audit == s.audit + [e]
    ensures e.tid == tid && e.decision == Allow && !e.replay && e.call.Some? && e.call.value.input == input
  {
    var call := CallOf(FactsIn(env, s), input, w);
    AdmissibleInPlainTerms(FactsIn(env, s), input, w);
    p, t := FirstCompletes(env, s, tid, input, w);
    e := Event(tid, Allow, false, Some(call), Some(ContextFor(FactsIn(env, s), call, w)));
  }

  /**
   * From any state: an execution asks for an approval, a human approves, and the same input with that approval acts, if
   * nothing else stops the token by then.
   */
  lemma ApprovalLetsItAct(env: Env, hash: Text -> string, s: State, first: nat, second: nat, input: Input, w: World, now: int,
                          resolver: Option<string>, again: World) returns (p: Path, t: State)
    requires Outcomes.Sound(FactsIn(env, s), hash) && first != second && first !in s.threads && second !in s.threads
    requires !NamesApproval(input) && w.newApprovalId != "" && w.newApprovalId !in s.requests
    requires again.newApprovalId !in s.requests && again.newApprovalId != w.newApprovalId
    requires OutcomeOf(FactsIn(env, s), input, w).decision == RequireApproval
    requires TokenAdmits(env, s, input, again.now) && !input.simulate && again.adapterSucceeds
    requires var claims := env.tokens[input.token];
             && Lets(claims.tool, FromJwt(claims.constraints), input.payload, Count(s.ledger, claims.jti), true, again.hour,
                     PurposeOf(input, claims))
             && !Remembered(s.ledger, claims.jti, input.requestId) && RoomLeft(s.ledger, claims)
    ensures Leads(env, s, p, t) && AskedThen(s, t, first, second, input, w.newApprovalId, Allow)
  {
    var mid, ctx, q, e;
    p, mid, ctx := AskedAndAnswered(env, s, first, input, w, Approved, now, resolver);
    var answered := Answered(mid, w.newApprovalId, Approved, now, resolver);
    ApprovedIsAdmitted(env, s, mid, first, input, ctx, w.newApprovalId, now, resolver, again);
    ApprovedIsAllowed(env, hash, s, mid, first, input, ctx, w.newApprovalId, now, resolver, again);
    q, t, e := ActsOnApproval(env, answered, second, WithApproval(input, w.newApprovalId), again);
    JoinLeads(env, s, p, answered, q, t);
    p := Join(p, q);
    TwoEventsTell(s, mid, t, first, second, input,
                  Event(first, RequireApproval, false, Some(Call(input, env.tokens[input.token], false)), Some(ctx)), e, w.newApprovalId);
  }

  /** When the human rejects instead, the same input with that approval is denied. */
  lemma RejectionStopsIt(env: Env, s: State, first: nat, second: nat, input: Input, w: World, now: int, resolver: Option<string>,
                         again: World) returns (p: Path, t: State)
    requires first != second && first !in s.threads && second !in s.threads
    requires !NamesApproval(input) && w.newApprovalId != "" && w.newApprovalId !in s.requests
    requires OutcomeOf(FactsIn(env, s), input, w).decision == RequireApproval && TokenAdmits(env, s, input, again.now)
    ensures Leads(env, s, p, t) && AskedThen(s, t, first, second, input, w.newApprovalId, Deny)
  {
    var mid, ctx, q;
    p, mid, ctx := AskedAndAnswered(env, s, first, input, w, Rejected, now, resolver);
    var answered := Answered(mid, w.newApprovalId, Rejected, now, resolver);
    q, t := UncoveredIsDenied(env, answered, second, WithApproval(input, w.newApprovalId), again);
    JoinLeads(env, s, p, answered, q, t);
    p := Join(p, q);
  }

  // ------------------------------------------------------ the premises can be met

  /** Claims whose every execution needs a human. */
  function AlwaysAsking(): (claims: Claims)
    ensures ValidClaims(claims) && !Versions.Stamped(claims.policyVersionId)
    ensures FromJwt(claims.constraints) ==
            ConstraintSet(None, None, None, None, None, None, None, Some(true), None, None, None)
  {
    var limits := ConstraintSet(None, None, None, None, None, None, None, Some(true), None, None, None);
    ValidSetsSurviveTheToken(limits);
    Claims(DEFAULT_ISSUER, "agent", SlackSend, ToJwt(limits), 1, 901, "cap_" + seq(36, _ => '0'),
           None, None, None, None, None, map[], None, None, None)
  }

  function OneMessage(): Input {
    Input("token", SlackSend, Payload(None, None, false, None, None, ""), None, None, None, None, None, false)
  }

  lemma MessagesAsk(env: Env, hash: Text -> string)
    requires env.tokens == map["token" := AlwaysAsking()] && env.issuer.None? && Implements(env.engine, hash)
    ensures OutcomeOf(FactsIn(env, Initial()), OneMessage(), World(2, 12, true, "approval")).decision == RequireApproval
  {
    AsksInPlainTerms(FactsIn(env, Initial()), hash, OneMessage(), World(2, 12, true, "approval"));
  }

  /** A run from the start in which an execution asks, a human approves and it acts. */
  lemma ApprovedRunExists(env: Env, hash: Text -> string) returns (p: Path, t: State)
    requires env.tokens == map["token" := AlwaysAsking()] && env.issuer.None? && Implements(env.engine, hash)
    ensures Leads(env, Initial(), p, t) && AskedThen(Initial(), t, 0, 1, OneMessage(), "approval", Allow)
  {
    MessagesAsk(env, hash);
    p, t := ApprovalLetsItAct(env, hash, Initial(), 0, 1, OneMessage(), World(2, 12, true, "approval"), 3, None,
                              World(4, 12, true, "later"));
  }
}
