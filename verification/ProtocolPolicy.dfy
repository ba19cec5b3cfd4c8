/** What an ALLOW means over whole runs: the policy of the token's own constraints allowed it, whatever the registry held. */
module ProtocolPolicy {
  import opened Prelude
  import opened Policy
  import opened Compiler
  import opened Tokens
  import opened Versions
  import opened Protocol
  import opened ProtocolQuota
  import opened ProtocolSafety
  import opened ProtocolContext
  import opened ProtocolVerdicts

  // ------------------------------------------------------------------- invariants

  ghost predicate SameVerdicts(engine: Engine, a: Document, b: Document) {
    forall ctx :: engine.evaluate(a, ctx) == engine.evaluate(b, ctx)
  }

  /** A document that goes by the id a token is stamped with evaluates as the token's own policy. */
  ghost predicate Harmless(env: Env, document: Versioned) {
    forall token :: token in env.tokens && env.tokens[token].policyVersionId == Some(document.id) && document.id != "" ==>
      SameVerdicts(env.engine, document.doc, OwnPolicy(env, env.tokens[token]).doc)
  }

  ghost predicate HarmlessRegistry(env: Env, versions: map<string, Versioned>) {
    forall id :: id in versions ==> versions[id].id == id && Harmless(env, versions[id])
  }

  /** The policies of the tokens themselves are harmless to each other. */
  ghost predicate HarmlessTokens(env: Env) {
    forall token :: token in env.tokens ==> Harmless(env, OwnPolicy(env, env.tokens[token]))
  }

  ghost predicate HarmlessStep(env: Env, step: Step) {
    step.Register? ==> Harmless(env, env.engine.written(step.tool, step.w))
  }

  /** The policy of the token's own constraints allowed this context, with no more approval than was bound. */
  predicate Justified(env: Env, call: Call, ctx: Context) {
    && env.engine.evaluate(OwnPolicy(env, call.claims).doc, ctx).decision == Allow
    && !ctx.simulate && ctx.approvalGranted == call.granted
    && ctx.payload == call.input.payload && ctx.tool == call.claims.tool
  }

  predicate AllowsAreJustified(env: Env, s: State) {
    && (forall t :: t in s.threads && PastDecision(s.threads[t]) ==> Justified(env, s.threads[t].call, s.threads[t].ctx))
    && (forall i :: 0 <= i < |s.audit| && s.audit[i].decision == Allow ==>
          s.audit[i].call.Some? && s.audit[i].ctx.Some? && Genuine(env, s.audit[i].call.value)
          && Justified(env, s.audit[i].call.value, s.audit[i].ctx.value))
  }

  ghost predicate PolicyInvariant(env: Env, s: State) {
    GenuineCalls(env, s) && AllowsAreJustified(env, s) && HarmlessRegistry(env, s.versions)
  }

  // ------------------------------------------------------------------ preservation

  lemma MoveKeepsJustified(env: Env, s: State, s': State, tid: nat, th: Thread)
    requires AllowsAreJustified(env, s) && Moves(s, s', tid, th)
    requires PastDecision(th) ==> Justified(env, th.call, th.ctx)
    ensures AllowsAreJustified(env, s')
  {
  }

  lemma EndKeepsJustified(env: Env, s: State, s': State, tid: nat, e: Event)
    requires AllowsAreJustified(env, s) && Ends(s, s', tid, e)
    requires e.decision == Allow ==>
               e.call.Some? && e.ctx.Some? && Genuine(env, e.call.value) && Justified(env, e.call.value, e.ctx.value)
    ensures AllowsAreJustified(env, s')
  {
  }

  /** Whatever document the runtime finds for a genuine call, it gives the verdict of the token's own policy. */
  lemma FoundPolicyIsOwn(env: Env, versions: map<string, Versioned>, call: Call, ctx: Context)
    requires HarmlessRegistry(env, versions) && Genuine(env, call)
    ensures var found := PolicyFor(env, versions, call.claims);
            found.Some? ==>
              env.engine.evaluate(found.value.doc, ctx) == env.engine.evaluate(OwnPolicy(env, call.claims).doc, ctx)
  {
    var stamp := call.claims.policyVersionId;
    if Versions.Stamped(stamp) && stamp.value in versions {
      assert Harmless(env, versions[stamp.value]);
      assert env.tokens[call.input.token] == call.claims;
    }
  }

  lemma DecideKeepsJustified(env: Env, s: State, tid: nat, call: Call, ctx: Context, verdict: Decision, reason: Reason,
                             approvalId: string, now: int)
    requires AllowsAreJustified(env, s) && tid in s.threads && s.threads[tid].Counted?
    requires verdict == Allow ==> Genuine(env, call) && Justified(env, call, ctx)
    ensures AllowsAreJustified(env, DoDecide(s, tid, call, ctx, verdict, reason, approvalId, now))
  {
    var s' := DoDecide(s, tid, call, ctx, verdict, reason, approvalId, now);
    if verdict == Allow {
      MoveKeepsJustified(env, s, s', tid, Consuming(call, ctx));
    } else {
      EndKeepsJustified(env, s, s', tid, Event(tid, verdict, false, Some(call), Some(ctx)));
    }
  }

  lemma EvaluateKeepsJustified(env: Env, s: State, tid: nat, call: Call, count: nat, hour: int, approvalId: string, now: int)
    requires PolicyInvariant(env, s) && tid in s.threads && s.threads[tid] == Counted(call, count)
    ensures AllowsAreJustified(env, DoEvaluate(env, s, tid, call, ContextOf(call, count, hour), approvalId, now))
  {
    var ctx := ContextOf(call, count, hour);
    assert Genuine(env, call);
    FoundPolicyIsOwn(env, s.versions, call, ctx);
    match PolicyFor(env, s.versions, call.claims)
    case None =>
      EndKeepsJustified(env, s, DoEvaluate(env, s, tid, call, ctx, approvalId, now), tid, Event(tid, Deny, false, Some(call), None));
    case Some(policy) =>
      var e := env.engine.evaluate(policy.doc, ctx);
      DecideKeepsJustified(env, Resolving(env, s, call.claims), tid, call, ctx, VerdictOf(e, ctx.simulate), ReasonOf(e),
                           approvalId, now);
  }

  lemma LateShapeKeepsJustified(env: Env, s: State, s': State, tid: nat, ending: bool)
    requires GenuineCalls(env, s) && AllowsAreJustified(env, s) && LateShape(s, s', tid, ending)
    ensures AllowsAreJustified(env, s')
  {
    var th := s.threads[tid];
    assert Genuine(env, th.call) && Justified(env, th.call, th.ctx);
    if ending {
      EndKeepsJustified(env, s, s', tid, Event(tid, Allow, false, Some(th.call), Some(th.ctx)));
    } else {
      MoveKeepsJustified(env, s, s', tid, s'.threads[tid]);
    }
  }

  lemma RecordKeepsJustified(env: Env, s: State, tid: nat)
    requires Enabled(s, Record(tid)) && GenuineCalls(env, s) && AllowsAreJustified(env, s)
    ensures AllowsAreJustified(env, DoRecord(s, tid, s.threads[tid]))
  {
    var th := s.threads[tid];
    RecordEnds(s, tid);
    assert Genuine(env, th.call) && Justified(env, th.call, th.ctx);
    EndKeepsJustified(env, s, DoRecord(s, tid, th), tid,
                      Event(tid, if th.Replayed? then Allow else Deny, th.Replayed?, Some(th.call), Some(th.ctx)));
  }

  lemma EarlyShapeKeepsJustified(env: Env, s: State, s': State, tid: nat)
    requires AllowsAreJustified(env, s) && EarlyShape(s, s', tid)
    ensures AllowsAreJustified(env, s')
  {
    if Moves(s, s', tid, s'.threads[tid]) {
      MoveKeepsJustified(env, s, s', tid, s'.threads[tid]);
    } else {
      EndKeepsJustified(env, s, s', tid, s'.audit[|s.audit|]);
    }
  }

  lemma StepKeepsJustified(env: Env, s: State, step: Step)
    requires Enabled(s, step) && PolicyInvariant(env, s) && ApprovalInvariant(s)
    ensures AllowsAreJustified(env, Next(env, s, step))
  {
    if Early(step) {
      EarlyStepShape(env, s, step);
      EarlyShapeKeepsJustified(env, s, Next(env, s, step), step.tid);
    } else if Late(step) {
      LateStepShape(env, s, step);
      LateShapeKeepsJustified(env, s, Next(env, s, step), step.tid, step.AdapterOk?);
    } else if step.Decide? {
      EvaluateKeepsJustified(env, s, step.tid, s.threads[step.tid].call, s.threads[step.tid].count, step.hour,
                             step.approvalId, step.now);
    } else if step.Record? {
      RecordKeepsJustified(env, s, step.tid);
    }
  }

  lemma RegisteredKeepsHarmless(env: Env, versions: map<string, Versioned>, document: Versioned)
    requires HarmlessRegistry(env, versions) && Harmless(env, document)
    ensures HarmlessRegistry(env, Registered(versions, document))
  {
  }

  lemma BeginKeepsVersions(env: Env, s: State, tid: nat, input: Input, now: int)
    ensures DoBegin(env, s, tid, input, now).versions == s.versions
  {
  }

  lemma BindKeepsVersions(s: State, tid: nat, call: Call)
    ensures DoBind(s, tid, call).versions == s.versions
  {
  }

  lemma RecordKeepsVersions(s: State, tid: nat)
    requires Enabled(s, Record(tid))
    ensures DoRecord(s, tid, s.threads[tid]).versions == s.versions
  {
  }

  /** Only deciding and registering touch the registry. */
  lemma OtherStepsKeepVersions(env: Env, s: State, step: Step)
    requires Enabled(s, step) && !step.Decide? && !step.Register?
    ensures Next(env, s, step).versions == s.versions
  {
    if step.Begin? {
      BeginKeepsVersions(env, s, step.tid, step.input, step.now);
    } else if step.BindApproval? {
      BindKeepsVersions(s, step.tid, s.threads[step.tid].call);
    } else if step.Record? {
      RecordKeepsVersions(s, step.tid);
    }
  }

  lemma EvaluateVersions(env: Env, s: State, tid: nat, call: Call, ctx: Context, approvalId: string, now: int)
    ensures DoEvaluate(env, s, tid, call, ctx, approvalId, now).versions in {s.versions, Resolving(env, s, call.claims).versions}
  {
  }

  lemma StepKeepsHarmless(env: Env, s: State, step: Step)
    requires Enabled(s, step) && PolicyInvariant(env, s) && HarmlessTokens(env) && HarmlessStep(env, step)
    ensures HarmlessRegistry(env, Next(env, s, step).versions)
  {
    if step.Decide? {
      var call := s.threads[step.tid].call;
      assert Genuine(env, call);
      RegisteredKeepsHarmless(env, s.versions, OwnPolicy(env, call.claims));
      EvaluateVersions(env, s, step.tid, call, ContextOf(call, s.threads[step.tid].count, step.hour), step.approvalId, step.now);
    } else if step.Register? {
      RegisteredKeepsHarmless(env, s.versions, env.engine.written(step.tool, step.w));
    } else {
      OtherStepsKeepVersions(env, s, step);
    }
  }

  lemma {:induction false} RunKeepsPolicy(env: Env, s: State, steps: seq<Step>)
    requires IsRun(env, s, steps) && PolicyInvariant(env, s) && ApprovalInvariant(s)
    requires HarmlessTokens(env) && forall step :: step in steps ==> HarmlessStep(env, step)
    ensures PolicyInvariant(env, After(env, s, steps))
    decreases |steps|
  {
    if steps != [] {
      assert steps[0] in steps;
      StepKeepsSafety(env, s, steps[0]);
      StepKeepsJustified(env, s, steps[0]);
      StepKeepsHarmless(env, s, steps[0]);
      RunKeepsPolicy(env, Next(env, s, steps[0]), steps[1..]);
    }
  }

  // -------------------------------------------------------- tokens minted by the runtime

  /** A stamped token carries the id of the constraint object it was granted with, and those constraints. */
  predicate MintedWith(hash: Text -> string, claims: Claims, w: Written) {
    Versions.Stamped(claims.policyVersionId) ==>
      WellWritten(w) && w.fields == Limits(claims) && claims.policyVersionId.value == hash(TextOf(claims.tool, w))
  }

  /**
   * Every token was minted by the runtime, from the constraint object `minted` has for it, and the hash tells apart
   * the texts the run deals in: of those objects, of their recompilations and of everything registered.
   */
  ghost predicate MintedHere(env: Env, hash: Text -> string, minted: map<string, Written>, steps: seq<Step>, texts: set<Text>) {
    && Implements(env.engine, hash) && Distinguishes(hash, texts)
    && (forall token :: token in env.tokens ==>
          && token in minted && MintedWith(hash, env.tokens[token], minted[token])
          && (WellWritten(minted[token]) ==> TextOf(env.tokens[token].tool, minted[token]) in texts)
          && TextOf(env.tokens[token].tool, FromToken(Limits(env.tokens[token]))) in texts)
    && (forall step :: step in steps && step.Register? && WellWritten(step.w) ==> TextOf(step.tool, step.w) in texts)
  }

  /** A document that is what its text describes, under its text's id. */
  predicate SoundEntry(hash: Text -> string, v: Versioned) {
    v.id == hash(v.text) && v.doc.tool == v.text.tool && v.doc.root == v.text.root
  }

  lemma CompiledIsSound(hash: Text -> string, tool: Tool, w: Written)
    requires WellWritten(w)
    ensures SoundEntry(hash, CompileVersioned(hash, tool, w)) && CompileVersioned(hash, tool, w).text == TextOf(tool, w)
    ensures CompileVersioned(hash, tool, w).doc.root == Compile(tool, w.fields).root
  {
  }

  lemma OwnPolicyIsSound(env: Env, hash: Text -> string, claims: Claims)
    requires Implements(env.engine, hash)
    ensures var own := OwnPolicy(env, claims);
            SoundEntry(hash, own) && own.text == TextOf(claims.tool, FromToken(Limits(claims)))
            && own.doc.tool == claims.tool && own.doc.root == Compile(claims.tool, Limits(claims)).root
  {
    CompiledIsSound(hash, claims.tool, FromToken(Limits(claims)));
  }

  /** The text a minted token's id stands for describes the token's own policy. */
  lemma MintedTextIsOwn(env: Env, hash: Text -> string, claims: Claims, w: Written)
    requires Implements(env.engine, hash) && MintedWith(hash, claims, w) && Versions.Stamped(claims.policyVersionId)
    ensures var text, own := TextOf(claims.tool, w), OwnPolicy(env, claims).doc;
            text.tool == own.tool && text.root == own.root && hash(text) == claims.policyVersionId.value
  {
    OwnPolicyIsSound(env, hash, claims);
  }

  lemma SameTreeSameEngineVerdict(env: Env, hash: Text -> string, a: Document, b: Document)
    requires Implements(env.engine, hash) && a.tool == b.tool && a.root == b.root
    ensures SameVerdicts(env.engine, a, b)
  {
    SameTreeSameVerdict(a, b);
  }

  lemma SoundIsHarmlessTo(env: Env, hash: Text -> string, claims: Claims, w: Written, v: Versioned)
    requires Implements(env.engine, hash) && MintedWith(hash, claims, w) && SoundEntry(hash, v)
    requires Versions.Stamped(claims.policyVersionId) && claims.policyVersionId.value == v.id
    requires TellsApart(hash, v.text, TextOf(claims.tool, w))
    ensures SameVerdicts(env.engine, v.doc, OwnPolicy(env, claims).doc)
  {
    MintedTextIsOwn(env, hash, claims, w);
    SameTreeSameEngineVerdict(env, hash, v.doc, OwnPolicy(env, claims).doc);
  }

  lemma SoundIsHarmless(env: Env, hash: Text -> string, minted: map<string, Written>, steps: seq<Step>, texts: set<Text>,
                        v: Versioned)
    requires MintedHere(env, hash, minted, steps, texts) && SoundEntry(hash, v) && v.text in texts
    ensures Harmless(env, v)
  {
    forall token | token in env.tokens && env.tokens[token].policyVersionId == Some(v.id) && v.id != ""
      ensures SameVerdicts(env.engine, v.doc, OwnPolicy(env, env.tokens[token]).doc)
    {
      SoundIsHarmlessTo(env, hash, env.tokens[token], minted[token], v);
    }
  }

  lemma MintedTokensAreHarmless(env: Env, hash: Text -> string, minted: map<string, Written>, steps: seq<Step>, texts: set<Text>)
    requires MintedHere(env, hash, minted, steps, texts)
    requires forall step :: step in steps && step.Register? ==> WellWritten(step.w)
    ensures HarmlessTokens(env) && forall step :: step in steps ==> HarmlessStep(env, step)
  {
    forall token | token in env.tokens ensures Harmless(env, OwnPolicy(env, env.tokens[token])) {
      OwnPolicyIsSound(env, hash, env.tokens[token]);
      SoundIsHarmless(env, hash, minted, steps, texts, OwnPolicy(env, env.tokens[token]));
    }
    forall step | step in steps && step.Register? ensures Harmless(env, env.engine.written(step.tool, step.w)) {
      CompiledIsSound(hash, step.tool, step.w);
      SoundIsHarmless(env, hash, minted, steps, texts, env.engine.written(step.tool, step.w));
    }
  }

  lemma {:induction false} RegisteredAreWellWritten(env: Env, s: State, steps: seq<Step>)
    requires IsRun(env, s, steps)
    ensures forall step :: step in steps && step.Register? ==> WellWritten(step.w)
    decreases |steps|
  {
    if steps != [] {
      RegisteredAreWellWritten(env, Next(env, s, steps[0]), steps[1..]);
      assert steps == [steps[0]] + steps[1..];
    }
  }

  /** What the runtime grants is minted with the constraint object it was given. */
  lemma GrantsAreMinted(hash: Text -> string, input: GrantInput, w: Written, signerIssuer: Option<string>, now: int, jti: string)
    requires ValidInput(input) && WellWritten(w) && input.constraints == w.fields
    ensures var stamped := input.(policyVersionId := Some(hash(TextOf(input.tool, w))));
            MintedWith(hash, Granted(stamped, signerIssuer, now, jti), w)
  {
    ValidSetsSurviveTheToken(input.constraints);
  }

  /** The premises can be met: any token can be minted, under some hash and the engine of the policy modules. */
  lemma MintedWorldsExist(claims: Claims, w: Written) returns (env: Env, hash: Text -> string, texts: set<Text>)
    requires WellWritten(w) && w.fields == Limits(claims)
    ensures env.tokens == map["token" := claims.(policyVersionId := Some(hash(TextOf(claims.tool, w))))]
    ensures MintedHere(env, hash, map["token" := w], [], texts)
  {
    texts := {TextOf(claims.tool, w), TextOf(claims.tool, FromToken(w.fields))};
    hash := DistinguishingHashesExist(texts);
    var engine := EnginesExist(hash);
    env := Env(map["token" := claims.(policyVersionId := Some(hash(TextOf(claims.tool, w))))], None, engine);
  }

  // ---------------------------------------------------------------- main results

  /** The engine's ALLOW on a token's own policy is the constraints' own. */
  lemma OwnPolicyPermits(env: Env, hash: Text -> string, claims: Claims, ctx: Context)
    requires Implements(env.engine, hash) && !ctx.simulate
    ensures env.engine.evaluate(OwnPolicy(env, claims).doc, ctx).decision == Allow <==> Permits(claims.tool, Limits(claims), ctx)
  {
    AllowedExactlyWhenPermitted(claims.tool, Limits(claims), ctx);
  }

  /**
   * Over every run of a runtime that minted its tokens, whatever the registry holds at any time: an ALLOW was permitted by
   * the token's own constraints, for the call's payload and intent and the count it had read from the ledger. When they
   * would not have permitted it unaided, an approval that an earlier REQUIRE_APPROVAL asked for, for the same token, tool
   * and payload, was given before.
   */
  lemma EveryExceptionWasApproved(env: Env, hash: Text -> string, minted: map<string, Written>, texts: set<Text>,
                                  steps: seq<Step>, i: nat)
    requires IsRun(env, Initial(), steps) && MintedHere(env, hash, minted, steps, texts)
    requires var s := After(env, Initial(), steps); i < |s.audit| && s.audit[i].decision == Allow
    ensures var s := After(env, Initial(), steps); var e := s.audit[i];
            && e.call.Some? && e.ctx.Some?
            && var call, ctx := e.call.value, e.ctx.value;
               && Genuine(env, call) && Permits(call.claims.tool, Limits(call.claims), ctx)
               && JudgedIn(env, Initial(), steps, e.tid, call, ctx) && !ctx.simulate
               && (!Permits(call.claims.tool, Limits(call.claims), ctx.(approvalGranted := false)) ==>
                     ApprovedBefore(s, call, i)
                     && FirstVerdict(env, Initial(), steps, call.input.approvalId.value) == Some(Approvals.Approved))
  {
    RegisteredAreWellWritten(env, Initial(), steps);
    MintedTokensAreHarmless(env, hash, minted, steps, texts);
    RunKeepsPolicy(env, Initial(), steps);
    EveryVerdictHasItsContext(env, steps, i);
    var s := After(env, Initial(), steps);
    var call, ctx := s.audit[i].call.value, s.audit[i].ctx.value;
    OwnPolicyPermits(env, hash, call.claims, ctx);
    if call.granted {
      EveryGrantWasApproved(env, steps, i);
    } else {
      assert ctx.(approvalGranted := false) == ctx;
    }
  }
}
