/** From a constraint set to the ordered AND tree, and what that tree means. */
module Compiler {
  import opened Prelude
  import opened Policy

  predicate NonEmpty(list: Option<seq<string>>) {
    list.Some? && list.value != []
  }

  function When(b: bool, c: Condition): seq<Condition> {
    if b then [c] else []
  }

  function HoursPart(c: ConstraintSet): seq<Condition> {
    if c.allowedHours.Some? then [AllowedHours(c.allowedHours.value.start, c.allowedHours.value.end)] else []
  }

  function CountPart(c: ConstraintSet): seq<Condition> {
    if c.maxActions.Some? then [MaxActions(c.maxActions.value)] else []
  }

  function ApprovalPart(c: ConstraintSet): seq<Condition> {
    When(c.approvalRequired == Some(true), ApprovalRequired(false))
  }

  function SpendingPart(c: ConstraintSet): seq<Condition> {
    if c.spendingLimit.Some? then [SpendingLimit(c.spendingLimit.value)] else []
  }

  function CategoryPart(c: ConstraintSet): seq<Condition> {
    if NonEmpty(c.allowedIntentCategories) then [IntentCategory(LowerAll(c.allowedIntentCategories.value))] else []
  }

  function ActionPart(c: ConstraintSet): seq<Condition> {
    if NonEmpty(c.allowedIntentActions) then [IntentAction(LowerAll(c.allowedIntentActions.value))] else []
  }

  function DomainPart(c: ConstraintSet): seq<Condition> {
    if !NonEmpty(c.allowedDomains) then []
    else if c.approvalRequiredIfExternal == Some(true) then [ApprovalIfExternal(LowerAll(c.allowedDomains.value))]
    else [GmailDomains(LowerAll(c.allowedDomains.value))]
  }

  function AttachmentPart(c: ConstraintSet): seq<Condition> {
    When(c.attachments == Some(false), GmailAttachments(false))
  }

  function MethodPart(c: ConstraintSet): seq<Condition> {
    if NonEmpty(c.allowedMethods) then [HttpMethod(UpperAll(c.allowedMethods.value))] else []
  }

  function UrlPart(c: ConstraintSet): seq<Condition> {
    if NonEmpty(c.allowedUrls) then [HttpUrl(c.allowedUrls.value)] else []
  }

  function ToolPart(tool: Tool, c: ConstraintSet): seq<Condition> {
    match tool
    case GmailSend => DomainPart(c) + AttachmentPart(c)
    case HttpRequest => MethodPart(c) + UrlPart(c)
    case SlackSend => []
  }

  function LimitPart(c: ConstraintSet): seq<Condition> {
    HoursPart(c) + CountPart(c) + ApprovalPart(c) + SpendingPart(c)
  }

  function IntentPart(c: ConstraintSet): seq<Condition> {
    CategoryPart(c) + ActionPart(c)
  }

  /** The leaves of the compiled tree, in the order they are evaluated. */
  function Conditions(tool: Tool, c: ConstraintSet): seq<Condition> {
    LimitPart(c) + IntentPart(c) + ToolPart(tool, c)
  }

  function LeafNodes(cs: seq<Condition>): (nodes: seq<Node>)
    ensures |nodes| == |cs| && forall i :: 0 <= i < |cs| ==> nodes[i] == Leaf(cs[i])
  {
    seq(|cs|, i requires 0 <= i < |cs| => Leaf(cs[i]))
  }

  function Root(cs: seq<Condition>): Node {
    if |cs| == 1 then Leaf(cs[0]) else And(LeafNodes(cs))
  }

  function Compile(tool: Tool, c: ConstraintSet): Document {
    Document(tool, Root(Conditions(tool, c)), c)
  }

  /** The two intent conditions, pushed when their lists are non-empty. */
  method PushIntents(constraints: ConstraintSet, before: seq<Condition>) returns (conditions: seq<Condition>)
    ensures conditions == before + IntentPart(constraints)
  {
    conditions := before;
    if NonEmpty(constraints.allowedIntentCategories) {
      conditions := conditions + [IntentCategory(LowerAll(constraints.allowedIntentCategories.value))];
    }
    assert conditions == before + CategoryPart(constraints);
    if NonEmpty(constraints.allowedIntentActions) {
      conditions := conditions + [IntentAction(LowerAll(constraints.allowedIntentActions.value))];
    }
    assert conditions == before + CategoryPart(constraints) + ActionPart(constraints);
  }

  /** The rules that only one tool has. */
  method PushToolRules(tool: Tool, constraints: ConstraintSet, before: seq<Condition>) returns (conditions: seq<Condition>)
    ensures conditions == before + ToolPart(tool, constraints)
  {
    conditions := before;
    if tool == GmailSend {
      if NonEmpty(constraints.allowedDomains) {
        if constraints.approvalRequiredIfExternal == Some(true) {
          conditions := conditions + [ApprovalIfExternal(LowerAll(constraints.allowedDomains.value))];
        } else {
          conditions := conditions + [GmailDomains(LowerAll(constraints.allowedDomains.value))];
        }
      }
      assert conditions == before + DomainPart(constraints);
      if constraints.attachments == Some(false) {
        conditions := conditions + [GmailAttachments(false)];
      }
      assert conditions == before + DomainPart(constraints) + AttachmentPart(constraints);
    }
    if tool == HttpRequest {
      if NonEmpty(constraints.allowedMethods) {
        conditions := conditions + [HttpMethod(UpperAll(constraints.allowedMethods.value))];
      }
      assert conditions == before + MethodPart(constraints);
      if NonEmpty(constraints.allowedUrls) {
        conditions := conditions + [HttpUrl(constraints.allowedUrls.value)];
      }
      assert conditions == before + MethodPart(constraints) + UrlPart(constraints);
    }
  }

  /** The compiler as a sequence of pushes: one condition after another onto a growing list. */
  method CompilePolicy(tool: Tool, constraints: ConstraintSet) returns (doc: Document)
    ensures doc == Compile(tool, constraints)
  {
    var conditions: seq<Condition> := [];
    if constraints.allowedHours.Some? {
      var hours := constraints.allowedHours.value;
      conditions := conditions + [AllowedHours(hours.start, hours.end)];
    }
    assert conditions == HoursPart(constraints);
    if constraints.maxActions.Some? {
      conditions := conditions + [MaxActions(constraints.maxActions.value)];
    }
    assert conditions == HoursPart(constraints) + CountPart(constraints);
    if constraints.approvalRequired == Some(true) {
      conditions := conditions + [ApprovalRequired(false)];
    }
    assert conditions == HoursPart(constraints) + CountPart(constraints) + ApprovalPart(constraints);
    if constraints.spendingLimit.Some? {
      conditions := conditions + [SpendingLimit(constraints.spendingLimit.value)];
    }
    assert conditions == LimitPart(constraints);
    conditions := PushIntents(constraints, conditions);
    conditions := PushToolRules(tool, constraints, conditions);
    var root;
    if |conditions| == 0 {
      root := And([]);
    } else if |conditions| == 1 {
      root := Leaf(conditions[0]);
    } else {
      root := And(LeafNodes(conditions));
    }
    doc := Document(tool, root, constraints);
  }

  // -------------------------------------- what each limit means, field by field

  predicate HoursOk(c: ConstraintSet, ctx: Context) {
    c.allowedHours.Some? ==> c.allowedHours.value.start <= ctx.hour <= c.allowedHours.value.end
  }

  predicate CountOk(c: ConstraintSet, ctx: Context) {
    c.maxActions.Some? && c.maxActions.value < MAX_SAFE_INTEGER ==> ctx.actionCount < c.maxActions.value
  }

  predicate ApprovalOk(c: ConstraintSet, ctx: Context) {
    c.approvalRequired == Some(true) ==> ctx.approvalGranted
  }

  predicate SpendingOk(c: ConstraintSet, ctx: Context) {
    c.spendingLimit.Some? && ctx.payload.amount.Some? && ctx.payload.amount.value > c.spendingLimit.value
    ==> ctx.approvalGranted
  }

  predicate CategoryOk(c: ConstraintSet, ctx: Context) {
    NonEmpty(c.allowedIntentCategories) ==>
      ctx.intent.Some? && Lower(ctx.intent.value.category) in LowerAll(c.allowedIntentCategories.value)
  }

  predicate ActionOk(c: ConstraintSet, ctx: Context) {
    NonEmpty(c.allowedIntentActions) ==>
      && ctx.intent.Some? && ctx.intent.value.action.Some? && ctx.intent.value.action.value != ""
      && Lower(ctx.intent.value.action.value) in LowerAll(c.allowedIntentActions.value)
  }

  predicate DomainOk(c: ConstraintSet, ctx: Context) {
    NonEmpty(c.allowedDomains) && EmailDomain(ctx.payload.to).Some? && EmailDomain(ctx.payload.to).value != ""
    && EmailDomain(ctx.payload.to).value !in LowerAll(c.allowedDomains.value)
    ==> ctx.approvalGranted
  }

  predicate AttachmentsOk(c: ConstraintSet, ctx: Context) {
    c.attachments == Some(false) ==> !ctx.payload.attachments
  }

  predicate MethodOk(c: ConstraintSet, ctx: Context) {
    NonEmpty(c.allowedMethods) ==> Method(ctx.payload) in UpperAll(c.allowedMethods.value)
  }

  predicate UrlOk(c: ConstraintSet, ctx: Context) {
    NonEmpty(c.allowedUrls) && ctx.payload.url.Some? ==>
      exists u :: u in c.allowedUrls.value && UrlMatches(ctx.payload.url.value, u)
  }

  /** The constraints read one by one in their fixed priority order. */
  function Verdict(tool: Tool, c: ConstraintSet, ctx: Context): Decision {
    if !HoursOk(c, ctx) || !CountOk(c, ctx) then Deny
    else if !ApprovalOk(c, ctx) || !SpendingOk(c, ctx) then RequireApproval
    else if !CategoryOk(c, ctx) || !ActionOk(c, ctx) then Deny
    else if tool == GmailSend && !DomainOk(c, ctx) then
      if c.approvalRequiredIfExternal == Some(true) then RequireApproval else Deny
    else if tool == GmailSend && !AttachmentsOk(c, ctx) then Deny
    else if tool == HttpRequest && !(MethodOk(c, ctx) && UrlOk(c, ctx)) then Deny
    else Allow
  }

  predicate Permits(tool: Tool, c: ConstraintSet, ctx: Context) {
    && HoursOk(c, ctx) && CountOk(c, ctx) && ApprovalOk(c, ctx) && SpendingOk(c, ctx)
    && CategoryOk(c, ctx) && ActionOk(c, ctx)
    && (tool == GmailSend ==> DomainOk(c, ctx) && AttachmentsOk(c, ctx))
    && (tool == HttpRequest ==> MethodOk(c, ctx) && UrlOk(c, ctx))
  }

  // ------------------------------------------------------ compiler correctness

  lemma {:induction false} LeafNodesFlatten(cs: seq<Condition>)
    ensures LeavesAll(LeafNodes(cs)) == cs
  {
    if cs != [] {
      assert LeafNodes(cs)[1..] == LeafNodes(cs[1..]);
      LeafNodesFlatten(cs[1..]);
    }
  }

  lemma RootIsItsConditions(tool: Tool, c: ConstraintSet, ctx: Context)
    ensures OrFree(Compile(tool, c).root)
    ensures Leaves(Compile(tool, c).root) == Conditions(tool, c)
    ensures EvalNode(Compile(tool, c).root, ctx) == EvalList(Conditions(tool, c), ctx)
  {
    LeafNodesFlatten(Conditions(tool, c));
    NestingIsInvisible(Compile(tool, c).root, ctx);
  }

  lemma FirstRefusal(a: seq<Condition>, b: seq<Condition>, c: seq<Condition>, d: seq<Condition>, ctx: Context)
    ensures EvalList(a + b + c + d, ctx).decision ==
            if EvalList(a, ctx).decision != Allow then EvalList(a, ctx).decision
            else if EvalList(b, ctx).decision != Allow then EvalList(b, ctx).decision
            else if EvalList(c, ctx).decision != Allow then EvalList(c, ctx).decision
            else EvalList(d, ctx).decision
  {
    EvalListConcat(a, b, ctx);
    EvalListConcat(a + b, c, ctx);
    EvalListConcat(a + b + c, d, ctx);
  }

  lemma HoursAndCount(c: ConstraintSet, ctx: Context)
    ensures EvalList(HoursPart(c), ctx).decision == if HoursOk(c, ctx) then Allow else Deny
    ensures EvalList(CountPart(c), ctx).decision == if CountOk(c, ctx) then Allow else Deny
  {
  }

  lemma ApprovalAndSpending(c: ConstraintSet, ctx: Context)
    ensures EvalList(ApprovalPart(c), ctx).decision == if ApprovalOk(c, ctx) then Allow else RequireApproval
    ensures EvalList(SpendingPart(c), ctx).decision == if SpendingOk(c, ctx) then Allow else RequireApproval
  {
  }

  lemma LimitVerdict(c: ConstraintSet, ctx: Context)
    ensures EvalList(LimitPart(c), ctx).decision ==
            if !HoursOk(c, ctx) || !CountOk(c, ctx) then Deny
            else if !ApprovalOk(c, ctx) || !SpendingOk(c, ctx) then RequireApproval else Allow
  {
    HoursAndCount(c, ctx);
    ApprovalAndSpending(c, ctx);
    FirstRefusal(HoursPart(c), CountPart(c), ApprovalPart(c), SpendingPart(c), ctx);
  }

  lemma IntentVerdict(c: ConstraintSet, ctx: Context)
    ensures EvalList(IntentPart(c), ctx).decision == if CategoryOk(c, ctx) && ActionOk(c, ctx) then Allow else Deny
  {
    EvalListConcat(CategoryPart(c), ActionPart(c), ctx);
  }

  lemma ToolVerdict(c: ConstraintSet, ctx: Context)
    ensures EvalList(ToolPart(ctx.tool, c), ctx).decision ==
            if ctx.tool == GmailSend && !DomainOk(c, ctx) then
              if c.approvalRequiredIfExternal == Some(true) then RequireApproval else Deny
            else if ctx.tool == GmailSend && !AttachmentsOk(c, ctx) then Deny
            else if ctx.tool == HttpRequest && !(MethodOk(c, ctx) && UrlOk(c, ctx)) then Deny
            else Allow
  {
    match ctx.tool
    case GmailSend => EvalListConcat(DomainPart(c), AttachmentPart(c), ctx);
    case HttpRequest => EvalListConcat(MethodPart(c), UrlPart(c), ctx);
    case SlackSend =>
  }

  lemma PartsVerdict(c: ConstraintSet, ctx: Context)
    ensures EvalList(Conditions(ctx.tool, c), ctx).decision == Verdict(ctx.tool, c, ctx)
  {
    EvalListConcat(LimitPart(c), IntentPart(c), ctx);
    EvalListConcat(LimitPart(c) + IntentPart(c), ToolPart(ctx.tool, c), ctx);
    LimitVerdict(c, ctx);
    IntentVerdict(c, ctx);
    ToolVerdict(c, ctx);
  }

  /** Evaluating the compiled document is reading its conditions left to right, then turning a dry run's ALLOW into SIMULATE. */
  lemma CompiledEvaluation(tool: Tool, c: ConstraintSet, ctx: Context)
    ensures var listed := EvalList(Conditions(tool, c), ctx.(tool := tool));
            Evaluate(Compile(tool, c), ctx) ==
              if ctx.simulate && listed.decision == Allow then listed.(decision := Simulate, reason := Some(WouldAllow)) else listed
  {
    RootIsItsConditions(tool, c, ctx.(tool := tool));
  }

  lemma VerdictIgnoresTheToolOf(tool: Tool, c: ConstraintSet, ctx: Context)
    ensures Verdict(tool, c, ctx.(tool := tool)) == Verdict(tool, c, ctx)
  {
  }

  /** The compiled tree decides what the constraints say, read in priority order. */
  lemma CompilerCorrect(tool: Tool, c: ConstraintSet, ctx: Context)
    ensures Evaluate(Compile(tool, c), ctx).decision ==
            if ctx.simulate && Verdict(tool, c, ctx) == Allow then Simulate else Verdict(tool, c, ctx)
  {
    CompiledEvaluation(tool, c, ctx);
    PartsVerdict(c, ctx.(tool := tool));
    VerdictIgnoresTheToolOf(tool, c, ctx);
  }

  lemma AllowedExactlyWhenPermitted(tool: Tool, c: ConstraintSet, ctx: Context)
    requires !ctx.simulate
    ensures Evaluate(Compile(tool, c), ctx).decision == Allow <==> Permits(tool, c, ctx)
  {
    CompilerCorrect(tool, c, ctx);
  }

  /** The report of a compiled document: the leaves up to the first one that fails, all earlier ones passing. */
  lemma CompiledReport(tool: Tool, c: ConstraintSet, ctx: Context)
    ensures var cs := Conditions(tool, c); var inner := ctx.(tool := tool); var k := Passing(cs, inner);
            Evaluate(Compile(tool, c), ctx).traces == Some(ReportOf(if k < |cs| then cs[..k + 1] else cs, inner))
  {
    CompiledEvaluation(tool, c, ctx);
    ReportStopsAtFirstFailure(Conditions(tool, c), ctx.(tool := tool));
  }
}
