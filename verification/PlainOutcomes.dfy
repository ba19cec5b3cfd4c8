/** What an execution comes to, in plain terms: its own data, the token's claims and what the stores hold. */
module PlainOutcomes {
  import opened Prelude
  import opened Policy
  import opened Compiler
  import opened PlainTerms
  import opened Tokens
  import opened Ledgers
  import opened Approvals
  import opened Versions
  import opened Protocol
  import opened ProtocolQuota
  import opened ProtocolPolicy
  import opened Outcomes

  predicate NamesApproval(input: Input) {
    input.approvalId.Some? && input.approvalId.value != ""
  }

  /** The approval the input names is on record, approved, and was given for this token, this tool and this payload text. */
  predicate HasApproval(requests: Requests, input: Input) {
    && input.approvalId.Some? && input.approvalId.value in requests
    && var a := requests[input.approvalId.value];
       a.status == Approved && a.token == input.token && a.tool == input.tool && a.payload.text == input.payload.text
  }

  /** An intent without blanks around its texts, and without an action that has none; one without a category is none. */
  ghost predicate ReadsAs(raw: Option<Intent>, intent: Option<Intent>) {
    if raw.None? || AllBlank(raw.value.category) then intent.None?
    else
      && intent.Some? && TrimsTo(raw.value.category, intent.value.category)
      && if raw.value.action.None? || AllBlank(raw.value.action.value) then intent.value.action.None?
         else intent.value.action.Some? && TrimsTo(raw.value.action.value, intent.value.action.value)
  }

  lemma BlankMeansNoCore(s: string)
    ensures AllBlank(s) <==> Trim(s) == ""
  {
    TrimInPlainTerms(s, "");
    if AllBlank(s) {
      assert s == s + "" + "" && AllBlank("");
    }
    if TrimsTo(s, "") {
      var x: string, y: string :| s == x + "" + y && AllBlank(x) && AllBlank(y);
      assert forall c :: c in s ==> c in x || c in y;
    }
  }

  lemma ReadingIsNormalizing(raw: Option<Intent>, intent: Option<Intent>)
    ensures ReadsAs(raw, intent) <==> intent == Normalized(raw)
  {
    if raw.Some? {
      BlankMeansNoCore(raw.value.category);
      if intent.Some? { TrimInPlainTerms(raw.value.category, intent.value.category); }
      if raw.value.action.Some? {
        BlankMeansNoCore(raw.value.action.value);
        if intent.Some? && intent.value.action.Some? { TrimInPlainTerms(raw.value.action.value, intent.value.action.value); }
      }
    }
  }

  /** What an execution is for: the caller's intent as it reads, even when it reads as none, or else the token's. */
  ghost predicate Purpose(input: Input, claims: Claims, intent: Option<Intent>) {
    && (input.intent.Some? ==> ReadsAs(input.intent, intent))
    && (input.intent.None? ==> ReadsAs(claims.intent, intent))
  }

  /** The same as a value. */
  function PurposeOf(input: Input, claims: Claims): Option<Intent> {
    Normalized(if input.intent.Some? then input.intent else claims.intent)
  }

  lemma PurposeIsRead(input: Input, claims: Claims, intent: Option<Intent>)
    ensures Purpose(input, claims, intent) <==> intent == PurposeOf(input, claims)
  {
    ReadingIsNormalizing(if input.intent.Some? then input.intent else claims.intent, intent);
  }

  /** The token is known, live with five seconds of leeway, well formed, meant for this tool and issuer, and not revoked. */
  predicate TokenHolds(f: Facts, input: Input, now: int) {
    && input.token in f.env.tokens
    && var claims := f.env.tokens[input.token];
       && now < claims.exp + 5 && ValidClaims(claims) && claims.tool == input.tool
       && (f.env.issuer.Some? ==> f.env.issuer.value == claims.iss) && claims.jti !in f.revoked
  }

  /** Everything but the ledger and the adapter lets the execution act, or would if it were no dry run. */
  ghost predicate MayAct(f: Facts, input: Input, w: World) {
    && TokenHolds(f, input, w.now) && (NamesApproval(input) ==> HasApproval(f.requests, input))
    && var claims := f.env.tokens[input.token];
       && PolicyFor(f.env, f.versions, claims).Some?
       && forall intent :: Purpose(input, claims, intent) ==>
            Lets(claims.tool, FromJwt(claims.constraints), input.payload, Count(f.ledger, claims.jti), NamesApproval(input),
                 w.hour, intent)
  }

  predicate Remembered(l: Ledger, jti: string, request: Option<string>) {
    request.Some? && request.value != "" && jti in l.requests && request.value in l.requests[jti]
  }

  predicate RoomLeft(l: Ledger, claims: Claims) {
    claims.constraints.max_actions.Some? ==> Count(l, claims.jti) + 1 <= claims.constraints.max_actions.value
  }

  lemma AdmissibleInPlainTerms(f: Facts, input: Input, w: World)
    ensures Admissible(f, input, w) <==>
            TokenHolds(f, input, w.now) && (NamesApproval(input) ==> HasApproval(f.requests, input))
    ensures Admissible(f, input, w) ==>
              var call := CallOf(f, input, w);
              call.claims == f.env.tokens[input.token] && call.input == input && call.granted == NamesApproval(input)
  {
  }

  lemma ContextInPlainTerms(f: Facts, input: Input, w: World)
    requires Admissible(f, input, w)
    ensures var call := CallOf(f, input, w); var ctx := ContextFor(f, call, w);
            && ctx.payload == input.payload && ctx.actionCount == Count(f.ledger, call.claims.jti) && ctx.hour == w.hour
            && ctx.simulate == input.simulate && ctx.approvalGranted == NamesApproval(input)
            && ctx.intent == PurposeOf(input, call.claims)
  {
  }

  lemma MayActIsPermitted(f: Facts, input: Input, w: World)
    ensures MayAct(f, input, w) <==>
            && Admissible(f, input, w)
            && var call := CallOf(f, input, w);
               && PolicyFor(f.env, f.versions, call.claims).Some?
               && Permits(call.claims.tool, Limits(call.claims), ContextFor(f, call, w))
  {
    AdmissibleInPlainTerms(f, input, w);
    if Admissible(f, input, w) {
      var call := CallOf(f, input, w);
      ContextInPlainTerms(f, input, w);
      PermitsIsLets(call.claims.tool, Limits(call.claims), ContextFor(f, call, w));
      forall intent ensures Purpose(input, call.claims, intent) <==> intent == ContextFor(f, call, w).intent {
        PurposeIsRead(input, call.claims, intent);
      }
    }
  }

  /** A new action is performed exactly when everything lets it. */
  lemma ActsInPlainTerms(f: Facts, hash: Text -> string, input: Input, w: World)
    requires Outcomes.Sound(f, hash)
    ensures var r := OutcomeOf(f, input, w);
            r.decision == Allow && !r.replayed <==>
            && MayAct(f, input, w) && !input.simulate && w.adapterSucceeds
            && var claims := f.env.tokens[input.token];
               !Remembered(f.ledger, claims.jti, input.requestId) && RoomLeft(f.ledger, claims)
  {
    ActsExactlyWhen(f, hash, input, w);
    MayActIsPermitted(f, input, w);
  }

  /** A replay is answered exactly when the same is true of a request the ledger remembers. */
  lemma ReplaysInPlainTerms(f: Facts, hash: Text -> string, input: Input, w: World)
    requires Outcomes.Sound(f, hash)
    ensures OutcomeOf(f, input, w).replayed <==>
            MayAct(f, input, w) && !input.simulate && Remembered(f.ledger, f.env.tokens[input.token].jti, input.requestId)
  {
    ReplaysExactlyWhen(f, hash, input, w);
    MayActIsPermitted(f, input, w);
  }

  /** The verdict on a bound call, when a policy is found, is that of the token's own constraints. */
  lemma OwnVerdict(f: Facts, hash: Text -> string, call: Call, w: World)
    requires Outcomes.Sound(f, hash) && Genuine(f.env, call)
    ensures var ctx := ContextFor(f, call, w);
            VerdictFor(f, call, w) ==
              if PolicyFor(f.env, f.versions, call.claims).None? then None
              else Some(Evaluate(Compile(call.claims.tool, Limits(call.claims)), ctx).decision)
  {
    var ctx := ContextFor(f, call, w);
    FoundPolicyIsOwn(f.env, f.versions, call, ctx);
    CompilerCorrect(call.claims.tool, Limits(call.claims), ctx);
  }

  /** A human is asked exactly when the policy is found and what a human can grant is the first thing missing. */
  lemma AsksInPlainTerms(f: Facts, hash: Text -> string, input: Input, w: World)
    requires Outcomes.Sound(f, hash)
    ensures OutcomeOf(f, input, w).decision == RequireApproval <==>
            && TokenHolds(f, input, w.now) && (NamesApproval(input) ==> HasApproval(f.requests, input))
            && var claims := f.env.tokens[input.token];
               && PolicyFor(f.env, f.versions, claims).Some?
               && LacksHuman(claims.tool, FromJwt(claims.constraints), input.payload, Count(f.ledger, claims.jti),
                             NamesApproval(input), w.hour, PurposeOf(input, claims))
  {
    OutcomeIsAdmitted(f, input, w);
    AdmissibleInPlainTerms(f, input, w);
    if Admissible(f, input, w) {
      var call := CallOf(f, input, w);
      ContextInPlainTerms(f, input, w);
      OwnVerdict(f, hash, call, w);
      AskedInPlainTerms(call.claims.tool, Limits(call.claims), ContextFor(f, call, w));
    }
  }

  /** A dry run answers that it would be allowed exactly when the execution may act; no ledger or adapter is asked. */
  lemma SimulatesInPlainTerms(f: Facts, hash: Text -> string, input: Input, w: World)
    requires Outcomes.Sound(f, hash)
    ensures OutcomeOf(f, input, w).decision == Simulate <==> MayAct(f, input, w) && input.simulate
  {
    OutcomeIsAdmitted(f, input, w);
    MayActIsPermitted(f, input, w);
    if Admissible(f, input, w) {
      var call := CallOf(f, input, w);
      OwnVerdict(f, hash, call, w);
      CompilerCorrect(call.claims.tool, Limits(call.claims), ContextFor(f, call, w));
    }
  }

  /** The caller's intent decides, whatever the token was granted for: with a list of categories, only a listed one acts. */
  lemma CallersIntentDecides(f: Facts, hash: Text -> string, input: Input, w: World, i: Intent)
    requires Outcomes.Sound(f, hash) && input.intent == Some(i) && input.token in f.env.tokens
    requires Restricts(f.env.tokens[input.token].constraints.allowed_intent_categories)
    ensures OutcomeOf(f, input, w).decision == Allow ==>
              exists e :: e in f.env.tokens[input.token].constraints.allowed_intent_categories.value && Lower(e) == Lower(Trim(i.category))
  {
    ActsInPlainTerms(f, hash, input, w);
    ReplaysInPlainTerms(f, hash, input, w);
    if OutcomeOf(f, input, w).decision == Allow {
      PurposeIsRead(input, f.env.tokens[input.token], Normalized(Some(i)));
    }
  }

  /** An execution without an intent of its own is one with the token's. */
  lemma TokensIntentStandsIn(f: Facts, input: Input, w: World)
    requires input.intent.None? && input.token in f.env.tokens
    ensures OutcomeOf(f, input, w) == OutcomeOf(f, input.(intent := f.env.tokens[input.token].intent), w)
  {
    var other := input.(intent := f.env.tokens[input.token].intent);
    OutcomeIsAdmitted(f, input, w);
    OutcomeIsAdmitted(f, other, w);
    if Admissible(f, input, w) {
      var a, b := CallOf(f, input, w), CallOf(f, other, w);
      assert ContextFor(f, a, w) == ContextFor(f, b, w);
    }
  }
}
