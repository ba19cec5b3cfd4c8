/** Constraint sets, the policy tree they compile to, and its evaluator. */
module Policy {
  import opened Prelude

  datatype Tool = GmailSend | SlackSend | HttpRequest

  datatype Hours = Hours(start: int, end: int)

  datatype Intent = Intent(category: string, action: Option<string>)

  datatype ConstraintSet = ConstraintSet(
    allowedDomains: Option<seq<string>>,
    maxActions: Option<int>,
    allowedMethods: Option<seq<string>>,
    allowedUrls: Option<seq<string>>,
    attachments: Option<bool>,
    spendingLimit: Option<real>,
    allowedHours: Option<Hours>,
    approvalRequired: Option<bool>,
    approvalRequiredIfExternal: Option<bool>,
    allowedIntentCategories: Option<seq<string>>,
    allowedIntentActions: Option<seq<string>>)

  /** A request URL together with what the platform's URL parser made of it. */
  datatype Url = Parsed(raw: string, host: string) | Unparsed(raw: string)

  /** The payload properties the evaluator reads, and the payload's serialized text. */
  datatype Payload = Payload(
    amount: Option<real>,
    to: Option<string>,
    attachments: bool,
    verb: Option<string>,
    url: Option<Url>,
    text: string)

  datatype Context = Context(
    tool: Tool,
    payload: Payload,
    actionCount: nat,
    approvalGranted: bool,
    hour: int,
    simulate: bool,
    intent: Option<Intent>)

  datatype Condition =
    | AllowedHours(start: int, end: int)
    | MaxActions(limit: int)
    | ApprovalRequired(noop: bool)
    | SpendingLimit(limitCents: real)
    | ApprovalIfExternal(domains: seq<string>)
    | GmailDomains(domains: seq<string>)
    | GmailAttachments(allowed: bool)
    | HttpMethod(methods: seq<string>)
    | HttpUrl(urls: seq<string>)
    | IntentCategory(categories: seq<string>)
    | IntentAction(actions: seq<string>)

  datatype Node = Leaf(condition: Condition) | And(conditions: seq<Node>) | Or(alternatives: seq<Node>)

  datatype Document = Document(tool: Tool, root: Node, source: ConstraintSet)

  datatype Decision = Allow | Deny | RequireApproval | Simulate

  datatype Reason =
    | OutsideHours(start: int, end: int)
    | MaxActionsExceeded
    | ApprovalConstraint
    | SpendingExceeds(amount: real, limit: real)
    | ExternalNeedsApproval(domain: string)
    | ExternalBlocked(domain: string)
    | AttachmentsNotPermitted
    | MethodNotAllowed(verb: string)
    | UrlNotAllowed(url: string)
    | IntentMissing
    | CategoryNotAllowed(category: string, categories: seq<string>)
    | ActionMissing
    | ActionNotAllowed(action: string, actions: seq<string>)
    | WouldAllow

  datatype Judgement = Pass | Fail(decision: Decision, reason: Reason)

  /** One entry of the evaluator's report; the condition stands for its kind. */
  datatype Trace = Trace(condition: Condition, judgement: Judgement)

  datatype Evaluation = Evaluation(decision: Decision, reason: Option<Reason>, traces: Option<seq<Trace>>)

  const MAX_SAFE_INTEGER: int := 9007199254740991

  // ---------------------------------------------------------------- evaluator

  function EmailDomain(to: Option<string>): Option<string> {
    match to
    case None => None
    case Some(address) =>
      var at := LastIndexOf(address, '@');
      if at < 0 then None else Some(Lower(address[at + 1..]))
  }

  predicate HostWithin(host: string, allowed: string) {
    host == allowed || EndsWith(host, "." + allowed)
  }

  predicate UrlMatches(url: Url, allowed: string) {
    match url
    case Parsed(_, host) => HostWithin(host, allowed)
    case Unparsed(raw) => Contains(raw, allowed)
  }

  function Method(payload: Payload): string {
    Upper(if payload.verb.Some? then payload.verb.value else "GET")
  }

  /** The domain a mail goes to, when it is one the list does not contain. */
  function ExternalDomain(payload: Payload, domains: seq<string>): Option<string> {
    var domain := EmailDomain(payload.to);
    if domain.Some? && domain.value != "" && domains != [] && domain.value !in domains then domain else None
  }

  function Judge(c: Condition, ctx: Context): (j: Judgement)
    ensures j.Fail? ==> j.decision == Deny || j.decision == RequireApproval
  {
    match c
    case AllowedHours(start, end) =>
      if ctx.hour < start || ctx.hour > end then Fail(Deny, OutsideHours(start, end)) else Pass
    case MaxActions(limit) =>
      if limit < MAX_SAFE_INTEGER && ctx.actionCount >= limit then Fail(Deny, MaxActionsExceeded) else Pass
    case ApprovalRequired(noop) =>
      if !noop && !ctx.approvalGranted then Fail(RequireApproval, ApprovalConstraint) else Pass
    case SpendingLimit(limit) =>
      if ctx.payload.amount.Some? && ctx.payload.amount.value > limit && !ctx.approvalGranted
      then Fail(RequireApproval, SpendingExceeds(ctx.payload.amount.value, limit)) else Pass
    case ApprovalIfExternal(domains) =>
      var external := ExternalDomain(ctx.payload, domains);
      if ctx.tool == GmailSend && external.Some? && !ctx.approvalGranted
      then Fail(RequireApproval, ExternalNeedsApproval(external.value)) else Pass
    case GmailDomains(domains) =>
      var external := ExternalDomain(ctx.payload, domains);
      if external.Some? && !ctx.approvalGranted then Fail(Deny, ExternalBlocked(external.value)) else Pass
    case GmailAttachments(allowed) =>
      if !allowed && ctx.payload.attachments then Fail(Deny, AttachmentsNotPermitted) else Pass
    case HttpMethod(methods) =>
      if methods != [] && Method(ctx.payload) !in methods
      then Fail(Deny, MethodNotAllowed(Method(ctx.payload))) else Pass
    case HttpUrl(urls) =>
      if ctx.payload.url.Some? && urls != [] && !exists u :: u in urls && UrlMatches(ctx.payload.url.value, u)
      then Fail(Deny, UrlNotAllowed(ctx.payload.url.value.raw)) else Pass
    case IntentCategory(categories) =>
      if categories == [] then Pass
      else if ctx.intent.None? then Fail(Deny, IntentMissing)
      else if Lower(ctx.intent.value.category) !in categories
      then Fail(Deny, CategoryNotAllowed(ctx.intent.value.category, categories)) else Pass
    case IntentAction(actions) =>
      if actions == [] then Pass
      else if ctx.intent.None? || ctx.intent.value.action.None? || ctx.intent.value.action.value == ""
      then Fail(Deny, ActionMissing)
      else if Lower(ctx.intent.value.action.value) !in actions
      then Fail(Deny, ActionNotAllowed(ctx.intent.value.action.value, actions)) else Pass
  }

  function EvalCondition(c: Condition, ctx: Context): Evaluation {
    match Judge(c, ctx)
    case Pass => Evaluation(Allow, None, Some([Trace(c, Pass)]))
    case Fail(decision, reason) => Evaluation(decision, Some(reason), Some([Trace(c, Fail(decision, reason))]))
  }

  function TracesOf(e: Evaluation): seq<Trace> {
    if e.traces.Some? then e.traces.value else []
  }

  function Prepend(traces: seq<Trace>, e: Evaluation): Evaluation {
    e.(traces := Some(traces + TracesOf(e)))
  }

  /** What a tree evaluates to. An OR node is never looked into. */
  function EvalNode(node: Node, ctx: Context): Evaluation
    decreases node, 0
  {
    match node
    case Leaf(c) => EvalCondition(c, ctx)
    case And(children) => EvalAll(children, ctx)
    case Or(_) => Evaluation(Allow, None, None)
  }

  function EvalAll(nodes: seq<Node>, ctx: Context): (e: Evaluation)
    ensures e.traces.Some?
    decreases nodes, 0
  {
    if nodes == [] then Evaluation(Allow, None, Some([]))
    else
      var first := EvalNode(nodes[0], ctx);
      if first.decision != Allow then Prepend([], first)
      else Prepend(TracesOf(first), EvalAll(nodes[1..], ctx))
  }

  /** The evaluator as a walk: recursion, with a loop over the children of an AND that collects their reports. */
  method EvaluateNode(node: Node, ctx: Context) returns (e: Evaluation)
    ensures e == EvalNode(node, ctx)
    decreases node
  {
    match node
    case Leaf(c) => e := EvalCondition(c, ctx);
    case Or(_) => e := Evaluation(Allow, None, None);
    case And(children) =>
      if children == [] { return Evaluation(Allow, None, Some([])); }
      var allTraces: seq<Trace> := [];
      PrependNothing(EvalAll(children, ctx));
      assert children[0..] == children;
      var i := 0;
      while i < |children|
        invariant 0 <= i <= |children|
        invariant EvalAll(children, ctx) == Prepend(allTraces, EvalAll(children[i..], ctx))
      {
        assert children[i..][1..] == children[i + 1..];
        var result := EvaluateNode(children[i], ctx);
        PrependTwice(allTraces, TracesOf(result), EvalAll(children[i + 1..], ctx));
        assert [] + TracesOf(result) == TracesOf(result);
        allTraces := allTraces + TracesOf(result);
        if result.decision != Allow { return result.(traces := Some(allTraces)); }
        i := i + 1;
      }
      assert children[i..] == [] && allTraces + [] == allTraces;
      e := Evaluation(Allow, None, Some(allTraces));
  }

  lemma PrependNothing(e: Evaluation)
    requires e.traces.Some?
    ensures Prepend([], e) == e
  {
    assert [] + e.traces.value == e.traces.value;
  }

  lemma PrependTwice(a: seq<Trace>, b: seq<Trace>, e: Evaluation)
    ensures Prepend(a, Prepend(b, e)) == Prepend(a + b, e)
  {
    assert a + (b + TracesOf(e)) == a + b + TracesOf(e);
  }

  function Evaluate(doc: Document, ctx: Context): Evaluation {
    var result := EvalNode(doc.root, ctx.(tool := doc.tool));
    if ctx.simulate && result.decision == Allow
    then result.(decision := Simulate, reason := Some(WouldAllow)) else result
  }

  // ------------------------------------------------- trees as lists of leaves

  predicate OrFree(node: Node)
    decreases node
  {
    match node
    case Leaf(_) => true
    case And(children) => forall n :: n in children ==> OrFree(n)
    case Or(_) => false
  }

  function Leaves(node: Node): seq<Condition>
    decreases node, 0
  {
    match node
    case Leaf(c) => [c]
    case And(children) => LeavesAll(children)
    case Or(_) => []
  }

  function LeavesAll(nodes: seq<Node>): seq<Condition>
    decreases nodes, 0
  {
    if nodes == [] then [] else Leaves(nodes[0]) + LeavesAll(nodes[1..])
  }

  /** A list of conditions read left to right, stopping at the first that fails. */
  function EvalList(cs: seq<Condition>, ctx: Context): (e: Evaluation)
    ensures e.traces.Some?
  {
    if cs == [] then Evaluation(Allow, None, Some([]))
    else match Judge(cs[0], ctx)
      case Fail(decision, reason) => EvalCondition(cs[0], ctx)
      case Pass => Prepend([Trace(cs[0], Pass)], EvalList(cs[1..], ctx))
  }

  lemma {:induction false} EvalListConcat(a: seq<Condition>, b: seq<Condition>, ctx: Context)
    ensures EvalList(a + b, ctx) ==
            if EvalList(a, ctx).decision == Allow
            then Prepend(TracesOf(EvalList(a, ctx)), EvalList(b, ctx)) else EvalList(a, ctx)
  {
    if a == [] {
      assert a + b == b;
      PrependNothing(EvalList(b, ctx));
    } else {
      assert (a + b)[1..] == a[1..] + b;
      EvalListConcat(a[1..], b, ctx);
      var rest := EvalList(a[1..], ctx);
      PrependTwice([Trace(a[0], Pass)], TracesOf(rest), EvalList(b, ctx));
    }
  }

  /** Nesting of AND nodes changes neither the decision nor the report. */
  lemma {:induction false} NestingIsInvisible(node: Node, ctx: Context)
    requires OrFree(node)
    ensures EvalNode(node, ctx) == EvalList(Leaves(node), ctx)
    decreases node, 0
  {
    match node
    case Leaf(c) =>
      assert EvalList([c][1..], ctx) == Evaluation(Allow, None, Some([]));
      assert [Trace(c, Pass)] + [] == [Trace(c, Pass)];
    case And(children) => NestingIsInvisibleAll(children, ctx);
  }

  lemma {:induction false} NestingIsInvisibleAll(nodes: seq<Node>, ctx: Context)
    requires forall n :: n in nodes ==> OrFree(n)
    ensures EvalAll(nodes, ctx) == EvalList(LeavesAll(nodes), ctx)
    decreases nodes, 0
  {
    if nodes != [] {
      NestingIsInvisible(nodes[0], ctx);
      NestingIsInvisibleAll(nodes[1..], ctx);
      EvalListConcat(Leaves(nodes[0]), LeavesAll(nodes[1..]), ctx);
      var first := EvalNode(nodes[0], ctx);
      assert [] + TracesOf(first) == TracesOf(first);
    }
  }

  function ReportOf(cs: seq<Condition>, ctx: Context): (report: seq<Trace>)
    ensures |report| == |cs|
  {
    seq(|cs|, i requires 0 <= i < |cs| => Trace(cs[i], Judge(cs[i], ctx)))
  }

  /** How many conditions pass before the first that fails. */
  function Passing(cs: seq<Condition>, ctx: Context): (k: nat)
    ensures k <= |cs|
    ensures forall i :: 0 <= i < k ==> Judge(cs[i], ctx).Pass?
    ensures k < |cs| ==> Judge(cs[k], ctx).Fail?
  {
    if cs == [] || Judge(cs[0], ctx).Fail? then 0 else 1 + Passing(cs[1..], ctx)
  }

  function Last(c: Condition, j: Judgement, traces: seq<Trace>): Evaluation {
    match j
    case Pass => Evaluation(Allow, None, Some(traces))
    case Fail(decision, reason) => Evaluation(decision, Some(reason), Some(traces))
  }

  lemma ReportBehindAPass(cs: seq<Condition>, ctx: Context, n: nat)
    requires cs != [] && n < |cs| && Judge(cs[0], ctx).Pass?
    ensures ReportOf(cs[..n + 1], ctx) == [Trace(cs[0], Pass)] + ReportOf(cs[1..][..n], ctx)
  {
  }

  /** The report is the leaves up to and including the first failure, and the decision is that leaf's. */
  lemma {:induction false} ReportStopsAtFirstFailure(cs: seq<Condition>, ctx: Context)
    ensures var k := Passing(cs, ctx);
            EvalList(cs, ctx) ==
              if k < |cs| then Last(cs[k], Judge(cs[k], ctx), ReportOf(cs[..k + 1], ctx))
              else Evaluation(Allow, None, Some(ReportOf(cs, ctx)))
  {
    if cs != [] {
      var j := Judge(cs[0], ctx);
      if j.Fail? {
        assert ReportOf(cs[..1], ctx) == [Trace(cs[0], j)];
      } else {
        ReportStopsAtFirstFailure(cs[1..], ctx);
        var k := Passing(cs[1..], ctx);
        if k + 1 < |cs| {
          ReportBehindAPass(cs, ctx, k + 1);
        } else {
          ReportBehindAPass(cs, ctx, k);
          assert cs[..k + 1] == cs && cs[1..][..k] == cs[1..];
        }
      }
    }
  }

  lemma {:induction false} AllowMeansEveryLeafPasses(cs: seq<Condition>, ctx: Context)
    ensures EvalList(cs, ctx).decision == Allow <==> forall c :: c in cs ==> Judge(c, ctx).Pass?
  {
    if cs != [] {
      AllowMeansEveryLeafPasses(cs[1..], ctx);
      assert cs == [cs[0]] + cs[1..];
    }
  }

  // ------------------------------------------------------ laws of the evaluator

  lemma ApprovalHelpsLeaf(c: Condition, ctx: Context)
    ensures var j := Judge(c, ctx.(approvalGranted := true)); j.Fail? ==> j.decision == Deny
    ensures Judge(c, ctx).Pass? ==> Judge(c, ctx.(approvalGranted := true)).Pass?
  {
  }

  lemma {:induction false} ApprovalHelpsList(cs: seq<Condition>, ctx: Context)
    ensures EvalList(cs, ctx.(approvalGranted := true)).decision in {Allow, Deny}
    ensures EvalList(cs, ctx).decision == Allow ==> EvalList(cs, ctx.(approvalGranted := true)).decision == Allow
  {
    if cs != [] {
      ApprovalHelpsLeaf(cs[0], ctx);
      ApprovalHelpsList(cs[1..], ctx);
    }
  }

  /** With an approval no OR-free tree asks for one again, and no ALLOW is lost. */
  lemma ApprovalOnlyHelps(node: Node, ctx: Context)
    requires OrFree(node)
    ensures EvalNode(node, ctx.(approvalGranted := true)).decision in {Allow, Deny}
    ensures EvalNode(node, ctx).decision == Allow ==> EvalNode(node, ctx.(approvalGranted := true)).decision == Allow
  {
    NestingIsInvisible(node, ctx.(approvalGranted := true));
    NestingIsInvisible(node, ctx);
    ApprovalHelpsList(Leaves(node), ctx);
  }

  lemma FewerActionsKeepAllow(node: Node, ctx: Context, fewer: nat)
    requires OrFree(node) && fewer <= ctx.actionCount
    requires EvalNode(node, ctx).decision == Allow
    ensures EvalNode(node, ctx.(actionCount := fewer)).decision == Allow
  {
    NestingIsInvisible(node, ctx);
    NestingIsInvisible(node, ctx.(actionCount := fewer));
    AllowMeansEveryLeafPasses(Leaves(node), ctx);
    AllowMeansEveryLeafPasses(Leaves(node), ctx.(actionCount := fewer));
  }

  /** A dry run answers SIMULATE exactly when the real run would be allowed, and the real decision otherwise. */
  lemma {:induction false} TreesNeverSimulate(node: Node, ctx: Context)
    ensures EvalNode(node, ctx).decision != Simulate
    ensures EvalNode(node, ctx) == EvalNode(node, ctx.(simulate := !ctx.simulate))
    decreases node, 0
  {
    match node
    case Leaf(c) => assert Judge(c, ctx) == Judge(c, ctx.(simulate := !ctx.simulate));
    case Or(_) =>
    case And(children) => TreesNeverSimulateAll(children, ctx);
  }

  lemma {:induction false} TreesNeverSimulateAll(nodes: seq<Node>, ctx: Context)
    ensures EvalAll(nodes, ctx).decision != Simulate
    ensures EvalAll(nodes, ctx) == EvalAll(nodes, ctx.(simulate := !ctx.simulate))
    decreases nodes, 0
  {
    if nodes != [] {
      TreesNeverSimulate(nodes[0], ctx);
      TreesNeverSimulateAll(nodes[1..], ctx);
    }
  }

  lemma SimulationPredictsExecution(doc: Document, ctx: Context)
    requires !ctx.simulate
    ensures var dry := Evaluate(doc, ctx.(simulate := true)); var actual := Evaluate(doc, ctx);
            && actual.decision != Simulate
            && (dry.decision == Simulate <==> actual.decision == Allow)
            && (actual.decision != Allow ==> dry == actual)
            && dry.traces == actual.traces
  {
    TreesNeverSimulate(doc.root, ctx.(tool := doc.tool));
    assert ctx.(simulate := true).(tool := doc.tool) == ctx.(tool := doc.tool).(simulate := true);
  }
}
