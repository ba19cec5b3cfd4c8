/** What the embedded Python runtime answers, in plain terms, and which executions needed a human over whole runs. */
module LocalReading {
  import opened Prelude
  import opened Policy
  import opened PlainTerms
  import opened LocalClient

  // ----------------------------------------------------------------- constraints

  ghost predicate UrlUnderAnyCase(url: Url, entry: string) {
    if url.Parsed? then Under(Lower(url.host), Lower(entry)) else Holds(Lower(url.raw), Lower(entry))
  }

  /** What the limits say of the request's own data; a limit on something the request does not have says nothing. */
  ghost predicate LocalLets(l: LocalLimits, call: Request, hour: int) {
    && (Restricts(l.allowedDomains) && call.tool == "gmail.send" && call.payload.to.Some? ==>
          forall domain :: AddressAt(call.payload.to.value, domain) ==> Among(l.allowedDomains, domain))
    && !(l.attachments == Some(false) && call.payload.attachments)
    && (Restricts(l.allowedMethods) && call.payload.verb.Some? ==>
          exists e :: e in l.allowedMethods.value && Upper(e) == Upper(call.payload.verb.value))
    && (Restricts(l.allowedUrls) && call.payload.url.Some? ==>
          exists e :: e in l.allowedUrls.value && UrlUnderAnyCase(call.payload.url.value, e))
    && (l.allowedHours.Some? ==> l.allowedHours.value.start <= hour && hour + 1 <= l.allowedHours.value.end)
    && (Restricts(l.allowedCategories) && call.category.Some? ==> Among(l.allowedCategories, call.category.value))
  }

  predicate Clears(check: Option<Check>) {
    check.Some? ==> check.value.broken.None?
  }

  lemma DomainCheckInPlainTerms(l: LocalLimits, call: Request)
    ensures Clears(DomainCheck(call.tool, l, call.payload)) <==>
            (Restricts(l.allowedDomains) && call.tool == "gmail.send" && call.payload.to.Some? ==>
               forall domain :: AddressAt(call.payload.to.value, domain) ==> Among(l.allowedDomains, domain))
  {
    var to, domain := call.payload.to, EmailDomain(call.payload.to);
    EmailDomainIsBehindTheLastAt(to, "");
    if Restricts(l.allowedDomains) && to.Some? {
      forall d | AddressAt(to.value, d) ensures domain == Some(Lower(d)) {
        EmailDomainIsBehindTheLastAt(to, d);
      }
      if domain.Some? {
        var d: string :| AddressAt(to.value, d) && Lower(d) == domain.value;
        InLowered(l.allowedDomains.value, d);
        assert Among(l.allowedDomains, d) <==> domain.value in LowerAll(l.allowedDomains.value);
      }
    }
  }

  lemma UrlCheckInPlainTerms(l: LocalLimits, p: Payload)
    ensures Clears(UrlCheck(l, p)) <==>
            (Restricts(l.allowedUrls) && p.url.Some? ==> exists e :: e in l.allowedUrls.value && UrlUnderAnyCase(p.url.value, e))
  {
    if Restricts(l.allowedUrls) && p.url.Some? {
      forall e | e in l.allowedUrls.value ensures HostMatches(p.url.value, e) <==> UrlUnderAnyCase(p.url.value, e) {
        match p.url.value
        case Parsed(_, host) => HostWithinIsUnder(Lower(host), Lower(e));
        case Unparsed(raw) => ContainsIsHolds(Lower(raw), Lower(e));
      }
    }
  }

  lemma OtherChecksInPlainTerms(l: LocalLimits, call: Request, hour: int)
    ensures Clears(AttachmentsCheck(l, call.payload)) <==> !(l.attachments == Some(false) && call.payload.attachments)
    ensures Clears(MethodCheck(l, call.payload)) <==>
            (Restricts(l.allowedMethods) && call.payload.verb.Some? ==>
               exists e :: e in l.allowedMethods.value && Upper(e) == Upper(call.payload.verb.value))
    ensures Clears(HoursCheck(l, hour)) <==>
            (l.allowedHours.Some? ==> l.allowedHours.value.start <= hour && hour + 1 <= l.allowedHours.value.end)
    ensures Clears(IntentCheck(l, call.category)) <==>
            (Restricts(l.allowedCategories) && call.category.Some? ==> Among(l.allowedCategories, call.category.value))
  {
    if Restricts(l.allowedMethods) && call.payload.verb.Some? { InUppered(l.allowedMethods.value, call.payload.verb.value); }
    if Restricts(l.allowedCategories) && call.category.Some? { InLowered(l.allowedCategories.value, call.category.value); }
  }

  /** No constraint refuses a request exactly when the limits, in plain terms, let it. */
  lemma NoneBrokenInPlainTerms(l: LocalLimits, call: Request, hour: int)
    ensures NoneBroken(Verdicts(l, call, hour)) <==> LocalLets(l, call, hour)
  {
    var vs := Verdicts(l, call, hour);
    assert NoneBroken(vs) <==> Clears(vs[0]) && Clears(vs[1]) && Clears(vs[2]) && Clears(vs[3]) && Clears(vs[4]) && Clears(vs[5]);
    DomainCheckInPlainTerms(l, call);
    UrlCheckInPlainTerms(l, call.payload);
    OtherChecksInPlainTerms(l, call, hour);
  }

  // -------------------------------------------------------------------- the gate

  /** Cut to whole cents the amount is above the limit. */
  predicate Exceeds(amount: real, limit: int) {
    if amount >= 0.0 then amount >= limit as real + 1.0 else amount > limit as real
  }

  /** A human has to agree: by the token's constraints, or because the amount is above its spending limit. */
  predicate NeedsHuman(l: LocalLimits, p: Payload) {
    l.approvalRequired || (l.spendingLimit.Some? && p.amount.Some? && Exceeds(p.amount.value, l.spendingLimit.value))
  }

  lemma GateInPlainTerms(l: LocalLimits, p: Payload)
    ensures ApprovalGate(l, p).Some? <==> NeedsHuman(l, p)
    ensures ApprovalGate(l, p) == Some(ApprovalByPolicy) <==> l.approvalRequired
  {
  }

  /** The request names an approval on record for this token, tool and payload. */
  predicate NamesMatch(b: Book, c: LocalClaims, call: Request) {
    && call.approvalId.Some? && call.approvalId.value != "" && call.approvalId.value in b.approvals
    && var a := b.approvals[call.approvalId.value];
       a.jti == c.jti && a.tool == call.tool && a.payload.text == call.payload.text
  }

  predicate HasStatus(b: Book, call: Request, status: Status) {
    call.approvalId.Some? && call.approvalId.value in b.approvals && b.approvals[call.approvalId.value].status == status
  }

  /** The token is known, not revoked, not expired and meant for the tool. */
  predicate TokenServes(b: Book, tokens: map<string, LocalClaims>, call: Request, now: int) {
    && call.token in tokens
    && var c := tokens[call.token];
       c.jti !in b.revoked && (c.exp.Some? ==> now < c.exp.value) && c.tool == call.tool
  }

  predicate Done(b: Book, jti: string, request: Option<string>) {
    request.Some? && request.value != "" && jti in b.completed && request.value in b.completed[jti]
  }

  predicate Full(b: Book, c: LocalClaims) {
    c.limits.maxActions.Some? && c.limits.maxActions.value <= (if c.jti in b.actions then b.actions[c.jti] else 0)
  }

  /** Token, constraints, dry run, replay and action limit leave the answer to the approval gate. */
  ghost predicate ReachesGate(b: Book, tokens: map<string, LocalClaims>, call: Request, now: int, hour: int) {
    && TokenServes(b, tokens, call, now)
    && var c := tokens[call.token];
       LocalLets(c.limits, call, hour) && !call.simulate && !Done(b, c.jti, call.requestId) && !Full(b, c)
  }

  lemma FirstBrokenInPlainTerms(l: LocalLimits, call: Request, hour: int)
    ensures FirstBroken(Verdicts(l, call, hour)).None? <==> LocalLets(l, call, hour)
  {
    RefusedWhenBroken(Verdicts(l, call, hour));
    NoneBrokenInPlainTerms(l, call, hour);
  }

  /** A token that does not serve is refused for the first thing wrong with it. */
  lemma TokensAreRefusedInOrder(b: Book, tokens: map<string, LocalClaims>, call: Request, now: int, hour: int)
    requires call.token in tokens
    ensures var r := AnswerTo(b, tokens, call, now, hour); var c := tokens[call.token];
            && (c.jti in b.revoked ==> r == Denied(CapabilityRevoked))
            && (c.jti !in b.revoked && c.exp.Some? && now >= c.exp.value ==> r == Denied(TokenExpired))
            && (c.jti !in b.revoked && (c.exp.Some? ==> now < c.exp.value) && c.tool != call.tool ==> r == Denied(ToolMismatch))
  {
  }

  /** Past the token, with the constraints judged: which answer comes before the approval gate. */
  lemma AdmittedInPlainTerms(b: Book, c: LocalClaims, call: Request, conditions: seq<Check>, broken: Option<Violation>)
    ensures var r := AdmittedAnswer(b, c, call, conditions, broken);
            && (broken.Some? ==> r == Denied(Violated(broken.value)))
            && (broken.None? && call.simulate ==> r == Simulated(conditions))
            && (broken.None? && !call.simulate && Done(b, c.jti, call.requestId) ==> r == Replayed)
            && (broken.None? && !call.simulate && !Done(b, c.jti, call.requestId) && Full(b, c) ==> r.Denied? && r.why.LimitReached?)
  {
  }

  /** Which answer a request gets up to the approval gate. */
  lemma AnswersBeforeTheGate(b: Book, tokens: map<string, LocalClaims>, call: Request, now: int, hour: int)
    requires TokenServes(b, tokens, call, now)
    ensures var r := AnswerTo(b, tokens, call, now, hour); var c := tokens[call.token];
            if !LocalLets(c.limits, call, hour) then r.Denied? && r.why.Violated?
            else if call.simulate then r.Simulated?
            else if Done(b, c.jti, call.requestId) then r == Replayed
            else Full(b, c) ==> r.Denied? && r.why.LimitReached?
  {
    var c := tokens[call.token];
    var vs := Verdicts(c.limits, call, hour);
    FirstBrokenInPlainTerms(c.limits, call, hour);
    AdmittedInPlainTerms(b, c, call, Report(vs), FirstBroken(vs));
  }

  lemma GatedInPlainTerms(b: Book, tokens: map<string, LocalClaims>, call: Request, now: int, hour: int)
    ensures ReachesGate(b, tokens, call, now, hour) ==>
              AnswerTo(b, tokens, call, now, hour) == GatedAnswer(b, tokens[call.token], call)
    ensures AnswerTo(b, tokens, call, now, hour).Allowed? || AnswerTo(b, tokens, call, now, hour).ApprovalNeeded? ==>
              ReachesGate(b, tokens, call, now, hour)
  {
    if call.token in tokens { FirstBrokenInPlainTerms(tokens[call.token].limits, call, hour); }
  }

  /** An execution goes ahead exactly when it gets to the gate and, if a human has to agree, one has. */
  lemma AllowedInPlainTerms(b: Book, tokens: map<string, LocalClaims>, call: Request, now: int, hour: int)
    ensures AnswerTo(b, tokens, call, now, hour).Allowed? <==>
            && ReachesGate(b, tokens, call, now, hour)
            && (NeedsHuman(tokens[call.token].limits, call.payload) ==>
                  NamesMatch(b, tokens[call.token], call) && HasStatus(b, call, Approved))
    ensures AnswerTo(b, tokens, call, now, hour).Allowed? ==>
              AnswerTo(b, tokens, call, now, hour).via ==
                if NeedsHuman(tokens[call.token].limits, call.payload) then call.approvalId else None
  {
    GatedInPlainTerms(b, tokens, call, now, hour);
    if call.token in tokens { GateInPlainTerms(tokens[call.token].limits, call.payload); }
  }

  /** A human is asked exactly when one has to agree and no matching approval on record has been settled. */
  lemma AskedExactlyWhen(b: Book, tokens: map<string, LocalClaims>, call: Request, now: int, hour: int)
    ensures AnswerTo(b, tokens, call, now, hour).ApprovalNeeded? <==>
            && ReachesGate(b, tokens, call, now, hour) && NeedsHuman(tokens[call.token].limits, call.payload)
            && (|| !Given(call.approvalId) || call.approvalId.value !in b.approvals
                || b.approvals[call.approvalId.value].jti != tokens[call.token].jti
                || (NamesMatch(b, tokens[call.token], call) && HasStatus(b, call, Pending)))
  {
    GatedInPlainTerms(b, tokens, call, now, hour);
    if call.token in tokens { GateInPlainTerms(tokens[call.token].limits, call.payload); }
  }

  /** The audit entry an answer leaves: what was decided, for what reason, on which tool. */
  lemma AnswersAreRecorded(b: Book, tokens: map<string, LocalClaims>, call: Request, answer: Answer, newId: string)
    ensures var audit := LocalClient.After(b, tokens, call, answer, newId).audit;
            && |audit| == |b.audit| + 1 && audit[..|b.audit|] == b.audit
            && var e := audit[|b.audit|];
               && e.id == |b.audit| + 1 && e.tool == call.tool
               && (e.decision == Decision.Deny <==> answer.Denied?) && (e.decision == Simulate <==> answer.Simulated?)
               && (e.decision == RequireApproval <==> answer.ApprovalNeeded?)
               && (answer.Denied? ==> e.reason == Some(answer.why)) && (answer.ApprovalNeeded? ==> e.reason == Some(answer.why))
               && (answer.Allowed? <==> e.decision == Decision.Allow && e.reason.None?)
               && (answer.Replayed? ==> e.reason == Some(Replay))
               && (call.token in tokens && !answer.Denied? ==> e.agentId == tokens[call.token].agentId && e.payload == Some(call.payload))
  {
  }

  /** A refusal over an approval is recorded for the agent that approval was asked for; a new request is filed for its caller. */
  lemma ApprovalsKeepTheirAgent(b: Book, tokens: map<string, LocalClaims>, call: Request, answer: Answer, newId: string)
    ensures var after := LocalClient.After(b, tokens, call, answer, newId);
            && (answer.Denied? && FromApproval(answer.why) && Given(call.approvalId) && call.approvalId.value in b.approvals ==>
                  after.audit[|b.audit|].agentId == b.approvals[call.approvalId.value].agentId)
            && (answer.ApprovalNeeded? && call.token in tokens ==>
                  && newId in after.approvals
                  && var a := after.approvals[newId];
                     a.agentId == tokens[call.token].agentId && a.tool == call.tool && a.payload == call.payload
                     && a.status == Pending && a.jti == tokens[call.token].jti)
  {
  }

  // ------------------------------------------------------------------ whole runs

  /** The execution `g` went through an approval exactly if its token and payload ask for a human. */
  predicate WentAsItHadTo(tokens: map<string, LocalClaims>, g: Go) {
    forall t :: t in tokens && tokens[t].jti == g.jti ==> (g.via.Some? <==> NeedsHuman(tokens[t].limits, g.payload))
  }

  lemma {:induction false} EveryGoWentAsItHadTo(tokens: map<string, LocalClaims>, ops: seq<Op>)
    requires OneTokenPerId(tokens)
    ensures forall g :: g in Run(tokens, ops).gone ==> WentAsItHadTo(tokens, g)
  {
    if ops != [] {
      var before, op := Run(tokens, ops[..|ops| - 1]), ops[|ops| - 1];
      EveryGoWentAsItHadTo(tokens, ops[..|ops| - 1]);
      if op.Execute? { AllowedInPlainTerms(before.book, tokens, op.call, op.now, op.hour); }
    }
  }

  predicate ApprovedEarlier(ops: seq<Op>, n: nat, id: string)
    requires n <= |ops|
  {
    exists k :: 0 <= k < n && ops[k] == Approve(id)
  }

  lemma {:induction false} CallsWereMade(ops: seq<Op>, id: string)
    ensures ApproveCalls(ops, id) > 0 ==> ApprovedEarlier(ops, |ops|, id)
  {
    if ops != [] {
      var before := ops[..|ops| - 1];
      CallsWereMade(before, id);
      if ApproveCalls(before, id) > 0 {
        var k :| 0 <= k < |before| && before[k] == Approve(id);
        assert ops[k] == Approve(id);
      }
    }
  }

  /**
   * Over every run: an execution that goes ahead on a token that asks for approval, or with an amount above its spending
   * limit, goes through the approval its request names, which an earlier call approved; any other goes through none.
   */
  lemma HumansAgreeFirst(tokens: map<string, LocalClaims>, ops: seq<Op>, n: nat)
    requires n < |ops| && ops[n].Execute? && OneTokenPerId(tokens) && FreshIds(tokens, ops[..n])
    ensures var op := ops[n]; var r := AnswerTo(Run(tokens, ops[..n]).book, tokens, op.call, op.now, op.hour);
            r.Allowed? ==>
              && op.call.token in tokens
              && (NeedsHuman(tokens[op.call.token].limits, op.call.payload) <==> r.via.Some?)
              && (r.via.Some? ==> op.call.approvalId == r.via && ApprovedEarlier(ops, n, r.via.value))
  {
    var op, b := ops[n], Run(tokens, ops[..n]).book;
    var r := AnswerTo(b, tokens, op.call, op.now, op.hour);
    AllowedInPlainTerms(b, tokens, op.call, op.now, op.hour);
    if r.Allowed? && r.via.Some? {
      var past, id := Run(tokens, ops[..n]), r.via.value;
      RunKeeps(tokens, ops[..n]);
      assert Through(past.gone, id) + Credit(past.book.approvals, id) <= past.calls[id];
      CallsAreCounted(tokens, ops[..n], id);
      CallsWereMade(ops[..n], id);
      var k :| 0 <= k < n && ops[..n][k] == Approve(id);
      assert ops[k] == Approve(id);
    }
  }

  /** Where no human has to agree, none is asked and no approval is used up. */
  lemma NobodyIsAskedWithoutNeed(b: Book, tokens: map<string, LocalClaims>, call: Request, now: int, hour: int, newId: string)
    requires call.token in tokens && !NeedsHuman(tokens[call.token].limits, call.payload)
    ensures var r := AnswerTo(b, tokens, call, now, hour);
            !r.ApprovalNeeded? && LocalClient.After(b, tokens, call, r, newId).approvals == b.approvals
  {
    AllowedInPlainTerms(b, tokens, call, now, hour);
    AskedExactlyWhen(b, tokens, call, now, hour);
  }

  /** The records once an execution has asked for an approval, and that request has a status. */
  function Filed(b: Book, tokens: map<string, LocalClaims>, call: Request, why: Why, newId: string, status: Status): Book {
    WithStatus(LocalClient.After(b, tokens, call, ApprovalNeeded(why), newId), newId, status)
  }

  /** What a verdict on an approval is worth to the request it was asked for. */
  function AnswerFor(status: Status, why: Why, id: string): Answer {
    match status
    case Approved => Allowed(Some(id))
    case Rejected => Denied(ApprovalWasRejected)
    case Consumed => Denied(ApprovalUsed)
    case Pending => ApprovalNeeded(why)
  }

  lemma RepeatReachesTheGate(b: Book, tokens: map<string, LocalClaims>, call: Request, now: int, hour: int, why: Why,
                             newId: string, status: Status)
    requires ReachesGate(b, tokens, call, now, hour)
    ensures ReachesGate(Filed(b, tokens, call, why, newId, status), tokens, call.(approvalId := Some(newId)), now, hour)
  {
    assert LocalLets(tokens[call.token].limits, call.(approvalId := Some(newId)), hour);
  }

  lemma RepeatAtTheGate(b: Book, tokens: map<string, LocalClaims>, call: Request, why: Why, newId: string, status: Status)
    requires call.token in tokens && newId != "" && ApprovalGate(tokens[call.token].limits, call.payload) == Some(why)
    ensures GatedAnswer(Filed(b, tokens, call, why, newId, status), tokens[call.token], call.(approvalId := Some(newId)))
            == AnswerFor(status, why, newId)
  {
  }

  /** What an execution asked for, once approved, lets the same request act; rejected or used up, it stops it. */
  lemma VerdictDecidesTheRepeat(b: Book, tokens: map<string, LocalClaims>, call: Request, now: int, hour: int, newId: string,
                                status: Status)
    requires AnswerTo(b, tokens, call, now, hour).ApprovalNeeded? && newId != ""
    ensures var why := AnswerTo(b, tokens, call, now, hour).why;
            AnswerTo(Filed(b, tokens, call, why, newId, status), tokens, call.(approvalId := Some(newId)), now, hour)
            == AnswerFor(status, why, newId)
  {
    var why := AnswerTo(b, tokens, call, now, hour).why;
    GatedInPlainTerms(b, tokens, call, now, hour);
    RepeatReachesTheGate(b, tokens, call, now, hour, why, newId, status);
    GatedInPlainTerms(Filed(b, tokens, call, why, newId, status), tokens, call.(approvalId := Some(newId)), now, hour);
    RepeatAtTheGate(b, tokens, call, why, newId, status);
  }
}
