/** The embedded Python runtime: one object that decides, counts, approves and audits in process. */
module LocalClient {
  import opened Prelude
  import opened Policy

  datatype Status = Pending | Approved | Rejected | Consumed

  datatype LocalLimits = LocalLimits(
    allowedDomains: Option<seq<string>>,
    attachments: Option<bool>,
    allowedMethods: Option<seq<string>>,
    allowedUrls: Option<seq<string>>,
    allowedHours: Option<Hours>,
    allowedCategories: Option<seq<string>>,
    approvalRequired: bool,
    spendingLimit: Option<int>,
    maxActions: Option<int>)

  datatype LocalClaims = LocalClaims(agentId: string, jti: string, exp: Option<int>, tool: string, limits: LocalLimits)

  datatype Request = Request(
    token: string,
    tool: string,
    payload: Payload,
    approvalId: Option<string>,
    requestId: Option<string>,
    category: Option<string>,
    simulate: bool)

  datatype LocalApproval = LocalApproval(agentId: string, tool: string, payload: Payload, status: Status, jti: string)

  // ---------------------------------------------------------------- constraints

  datatype Violation =
    | DomainBlocked(domain: string)
    | AttachmentsBlocked
    | MethodBlocked(verb: string)
    | UrlBlocked(url: string)
    | HoursBlocked(start: int, end: int, hour: int)
    | CategoryBlocked(category: string)

  datatype Kind = DomainKind | AttachmentsKind | MethodKind | UrlKind | HoursKind | IntentKind

  /** One evaluated condition: passed, or broken with a reason. */
  datatype Check = Check(kind: Kind, broken: Option<Violation>)

  function Listed(o: Option<seq<string>>): seq<string> {
    if o.Some? then o.value else []
  }

  function DomainCheck(tool: string, l: LocalLimits, p: Payload): Option<Check> {
    var domain := EmailDomain(p.to);
    if Listed(l.allowedDomains) == [] || tool != "gmail.send" || domain.None? then None
    else if domain.value in LowerAll(l.allowedDomains.value) then Some(Check(DomainKind, None))
    else Some(Check(DomainKind, Some(DomainBlocked(domain.value))))
  }

  /** Attachments are only reported when they are refused. */
  function AttachmentsCheck(l: LocalLimits, p: Payload): Option<Check> {
    if l.attachments == Some(false) && p.attachments then Some(Check(AttachmentsKind, Some(AttachmentsBlocked))) else None
  }

  function MethodCheck(l: LocalLimits, p: Payload): Option<Check> {
    if Listed(l.allowedMethods) == [] || p.verb.None? then None
    else if Upper(p.verb.value) in UpperAll(l.allowedMethods.value) then Some(Check(MethodKind, None))
    else Some(Check(MethodKind, Some(MethodBlocked(Upper(p.verb.value)))))
  }

  predicate HostMatches(url: Url, allowed: string) {
    match url
    case Parsed(_, host) => HostWithin(Lower(host), Lower(allowed))
    case Unparsed(raw) => Contains(Lower(raw), Lower(allowed))
  }

  function UrlCheck(l: LocalLimits, p: Payload): Option<Check> {
    if Listed(l.allowedUrls) == [] || p.url.None? then None
    else if exists a :: a in l.allowedUrls.value && HostMatches(p.url.value, a) then Some(Check(UrlKind, None))
    else Some(Check(UrlKind, Some(UrlBlocked(p.url.value.raw))))
  }

  /** The window ends before its last hour, unlike the gateway's. */
  function HoursCheck(l: LocalLimits, hour: int): Option<Check> {
    if l.allowedHours.None? then None
    else
      var h := l.allowedHours.value;
      if h.start <= hour < h.end then Some(Check(HoursKind, None))
      else Some(Check(HoursKind, Some(HoursBlocked(h.start, h.end, hour))))
  }

  function IntentCheck(l: LocalLimits, category: Option<string>): Option<Check> {
    if Listed(l.allowedCategories) == [] || category.None? then None
    else if Lower(category.value) in LowerAll(l.allowedCategories.value) then Some(Check(IntentKind, None))
    else Some(Check(IntentKind, Some(CategoryBlocked(category.value))))
  }

  /** Every constraint's verdict on a request, whatever the others say; None where it does not apply. */
  function Verdicts(l: LocalLimits, call: Request, hour: int): seq<Option<Check>> {
    [DomainCheck(call.tool, l, call.payload), AttachmentsCheck(l, call.payload), MethodCheck(l, call.payload),
     UrlCheck(l, call.payload), HoursCheck(l, hour), IntentCheck(l, call.category)]
  }

  /** The applicable verdicts up to and including the first that is broken. */
  function Report(vs: seq<Option<Check>>): seq<Check> {
    if vs == [] then []
    else if vs[0].None? then Report(vs[1..])
    else if vs[0].value.broken.Some? then [vs[0].value]
    else [vs[0].value] + Report(vs[1..])
  }

  function FirstBroken(vs: seq<Option<Check>>): Option<Violation> {
    if vs == [] then None
    else if vs[0].Some? && vs[0].value.broken.Some? then vs[0].value.broken
    else FirstBroken(vs[1..])
  }

  predicate NoneBroken(vs: seq<Option<Check>>) {
    forall i :: 0 <= i < |vs| && vs[i].Some? ==> vs[i].value.broken.None?
  }

  /** A request is refused exactly when some constraint refuses it, and the report ends with the refusal it names. */
  lemma {:induction false} RefusedWhenBroken(vs: seq<Option<Check>>)
    ensures FirstBroken(vs).None? <==> NoneBroken(vs)
    ensures forall i :: 0 <= i < |Report(vs)| - 1 ==> Report(vs)[i].broken.None?
    ensures FirstBroken(vs) == if Report(vs) == [] then None else Report(vs)[|Report(vs)| - 1].broken
  {
    if vs != [] {
      RefusedWhenBroken(vs[1..]);
      assert vs == [vs[0]] + vs[1..];
    }
  }

  lemma ReportStep(vs: seq<Option<Check>>, k: nat)
    requires k < |vs|
    ensures Report(vs[k..]) == if vs[k].None? then Report(vs[k + 1..])
                               else if vs[k].value.broken.Some? then [vs[k].value]
                               else [vs[k].value] + Report(vs[k + 1..])
    ensures FirstBroken(vs[k..]) == if vs[k].Some? && vs[k].value.broken.Some? then vs[k].value.broken
                                    else FirstBroken(vs[k + 1..])
  {
    assert vs[k..][1..] == vs[k + 1..];
  }

  /** Adds a verdict to the list, if there is one. */
  method Append(conditions: seq<Check>, ghost vs: seq<Option<Check>>, ghost k: nat, check: Option<Check>)
    returns (longer: seq<Check>, broken: Option<Violation>)
    requires k < |vs| && vs[k] == check
    ensures broken.None? ==> longer + Report(vs[k + 1..]) == conditions + Report(vs[k..])
    ensures broken.None? ==> FirstBroken(vs[k + 1..]) == FirstBroken(vs[k..])
    ensures broken.Some? ==> longer == conditions + Report(vs[k..]) && broken == FirstBroken(vs[k..])
  {
    ReportStep(vs, k);
    longer := conditions;
    broken := None;
    if check.Some? {
      longer := conditions + [check.value];
      broken := check.value.broken;
    }
  }

  /** The checks in their order, stopping at the first that is broken. */
  method CheckInOrder(domain: Option<Check>, attachments: Option<Check>, verb: Option<Check>, url: Option<Check>,
                      hours: Option<Check>, intent: Option<Check>)
    returns (conditions: seq<Check>, violation: Option<Violation>)
    ensures var vs := [domain, attachments, verb, url, hours, intent];
            conditions == Report(vs) && violation == FirstBroken(vs)
  {
    ghost var vs := [domain, attachments, verb, url, hours, intent];
    assert vs[0..] == vs && [] + Report(vs) == Report(vs);
    conditions, violation := Append([], vs, 0, domain);
    if violation.Some? { return; }
    conditions, violation := Append(conditions, vs, 1, attachments);
    if violation.Some? { return; }
    conditions, violation := Append(conditions, vs, 2, verb);
    if violation.Some? { return; }
    conditions, violation := Append(conditions, vs, 3, url);
    if violation.Some? { return; }
    conditions, violation := Append(conditions, vs, 4, hours);
    if violation.Some? { return; }
    conditions, violation := Append(conditions, vs, 5, intent);
    assert vs[6..] == [] && conditions + [] == conditions;
  }

  method EvaluateConstraints(l: LocalLimits, call: Request, hour: int)
    returns (conditions: seq<Check>, violation: Option<Violation>)
    ensures conditions == Report(Verdicts(l, call, hour)) && violation == FirstBroken(Verdicts(l, call, hour))
  {
    conditions, violation := CheckInOrder(
      DomainCheck(call.tool, l, call.payload), AttachmentsCheck(l, call.payload), MethodCheck(l, call.payload),
      UrlCheck(l, call.payload), HoursCheck(l, hour), IntentCheck(l, call.category));
  }

  // ------------------------------------------------------------------ decisions

  datatype Why =
    | InvalidToken
    | CapabilityRevoked
    | TokenExpired
    | ToolMismatch
    | Violated(violation: Violation)
    | PolicyWouldAllow
    | Replay
    | LimitReached(used: nat, limit: int)
    | ApprovalByPolicy
    | SpendingOver(amount: int, limit: int)
    | ApprovalMismatch
    | ApprovalWasRejected
    | ApprovalUsed

  /** An audit entry; an empty payload is None. */
  datatype Entry = Entry(
    id: nat, agentId: string, tool: string, decision: Decision, reason: Option<Why>, payload: Option<Payload>)

  datatype Answer =
    | Denied(why: Why)
    | Simulated(conditions: seq<Check>)
    | Replayed
    | ApprovalNeeded(why: Why)
    | Allowed(via: Option<string>)

  /** The client's records as a value. */
  datatype Book = Book(
    revoked: set<string>,
    actions: map<string, nat>,
    completed: map<string, set<string>>,
    approvals: map<string, LocalApproval>,
    audit: seq<Entry>)

  function Used(actions: map<string, nat>, jti: string): nat {
    if jti in actions then actions[jti] else 0
  }

  function CompletedFor(completed: map<string, set<string>>, jti: string): set<string> {
    if jti in completed then completed[jti] else {}
  }

  predicate Given(o: Option<string>) {
    o.Some? && o.value != ""
  }

  /** Amounts are cut to whole cents, towards zero. */
  function Cents(amount: real): int {
    if amount >= 0.0 then amount.Floor else -(-amount).Floor
  }

  /** Why an execution needs a human, if it does. */
  function ApprovalGate(l: LocalLimits, p: Payload): Option<Why> {
    if l.approvalRequired then Some(ApprovalByPolicy)
    else if l.spendingLimit.Some? && p.amount.Some? && Cents(p.amount.value) > l.spendingLimit.value
    then Some(SpendingOver(Cents(p.amount.value), l.spendingLimit.value))
    else None
  }

  datatype Resolution = Unusable | Usable(id: string) | Stopped(agentId: string, why: Why, payload: Option<Payload>)

  predicate PayloadMatches(a: Payload, b: Payload) {
    a.text == b.text
  }

  function Resolve(approvals: map<string, LocalApproval>, call: Request, jti: string): Resolution {
    if !Given(call.approvalId) || call.approvalId.value !in approvals || approvals[call.approvalId.value].jti != jti
    then Unusable
    else
      var a := approvals[call.approvalId.value];
      if a.tool != call.tool || !PayloadMatches(a.payload, call.payload)
      then Stopped(a.agentId, ApprovalMismatch, Some(call.payload))
      else match a.status
        case Approved => Usable(call.approvalId.value)
        case Rejected => Stopped(a.agentId, ApprovalWasRejected, None)
        case Consumed => Stopped(a.agentId, ApprovalUsed, None)
        case Pending => Unusable
  }

  predicate Expired(c: LocalClaims, now: int) {
    c.exp.Some? && now >= c.exp.value
  }

  predicate Spent(b: Book, c: LocalClaims) {
    c.limits.maxActions.Some? && Used(b.actions, c.jti) >= c.limits.maxActions.value
  }

  predicate Repeats(b: Book, c: LocalClaims, call: Request) {
    Given(call.requestId) && call.requestId.value in CompletedFor(b.completed, c.jti)
  }

  function GatedAnswer(b: Book, c: LocalClaims, call: Request): Answer {
    var gate := ApprovalGate(c.limits, call.payload);
    if gate.None? then Allowed(None)
    else match Resolve(b.approvals, call, c.jti)
      case Usable(id) => Allowed(Some(id))
      case Stopped(_, why, _) => Denied(why)
      case Unusable => ApprovalNeeded(gate.value)
  }

  /** Past the token checks: the constraints, a dry run, a replay, the action limit, the approval gate. */
  function AdmittedAnswer(b: Book, c: LocalClaims, call: Request, conditions: seq<Check>, broken: Option<Violation>): Answer {
    if broken.Some? then Denied(Violated(broken.value))
    else if call.simulate then Simulated(conditions)
    else if Repeats(b, c, call) then Replayed
    else if Spent(b, c) then Denied(LimitReached(Used(b.actions, c.jti), c.limits.maxActions.value))
    else GatedAnswer(b, c, call)
  }

  /** The first token check that fails, if one does. */
  function Refusal(b: Book, c: LocalClaims, call: Request, now: int): Option<Why> {
    if c.jti in b.revoked then Some(CapabilityRevoked)
    else if Expired(c, now) then Some(TokenExpired)
    else if c.tool != call.tool then Some(ToolMismatch)
    else None
  }

  function AnswerTo(b: Book, tokens: map<string, LocalClaims>, call: Request, now: int, hour: int): Answer {
    if call.token !in tokens then Denied(InvalidToken)
    else
      var c := tokens[call.token];
      var refusal := Refusal(b, c, call, now);
      var vs := Verdicts(c.limits, call, hour);
      if refusal.Some? then Denied(refusal.value)
      else AdmittedAnswer(b, c, call, Report(vs), FirstBroken(vs))
  }

  /** The execution goes ahead exactly under all of these, in whatever order they are looked at. */
  lemma AllowedExactlyWhen(b: Book, tokens: map<string, LocalClaims>, call: Request, now: int, hour: int)
    ensures AnswerTo(b, tokens, call, now, hour).Allowed? <==>
            && call.token in tokens
            && var c := tokens[call.token];
               && c.jti !in b.revoked && !Expired(c, now) && c.tool == call.tool && !call.simulate
               && NoneBroken(Verdicts(c.limits, call, hour)) && !Repeats(b, c, call) && !Spent(b, c)
               && (ApprovalGate(c.limits, call.payload).None? || Resolve(b.approvals, call, c.jti).Usable?)
  {
    if call.token in tokens {
      RefusedWhenBroken(Verdicts(tokens[call.token].limits, call, hour));
    }
  }

  // -------------------------------------------------------------------- history

  /** One execution that went ahead: the token, what it did, and the approval it used up, if it needed one. */
  datatype Go = Go(jti: string, tool: string, payload: Payload, gated: bool, via: Option<string>)

  function Jtis(gone: seq<Go>): (m: multiset<string>)
    ensures |m| == |gone|
  {
    if gone == [] then multiset{} else Jtis(gone[..|gone| - 1]) + multiset{gone[|gone| - 1].jti}
  }

  function Through(gone: seq<Go>, id: string): nat {
    if gone == [] then 0
    else Through(gone[..|gone| - 1], id) + if gone[|gone| - 1].via == Some(id) then 1 else 0
  }

  predicate PlainAllow(e: Entry) {
    e.decision == Allow && e.reason.None?
  }

  function PlainAllows(audit: seq<Entry>): nat {
    if audit == [] then 0
    else PlainAllows(audit[..|audit| - 1]) + if PlainAllow(audit[|audit| - 1]) then 1 else 0
  }

  lemma JtisAppend(gone: seq<Go>, g: Go)
    ensures Jtis(gone + [g]) == Jtis(gone) + multiset{g.jti}
  {
    assert (gone + [g])[..|gone|] == gone;
  }

  lemma ThroughAppend(gone: seq<Go>, g: Go, id: string)
    ensures Through(gone + [g], id) == Through(gone, id) + if g.via == Some(id) then 1 else 0
  {
    assert (gone + [g])[..|gone|] == gone;
  }

  lemma PlainAllowsAppend(audit: seq<Entry>, e: Entry)
    ensures PlainAllows(audit + [e]) == PlainAllows(audit) + if PlainAllow(e) then 1 else 0
  {
    assert (audit + [e])[..|audit|] == audit;
  }

  ghost function Sum(m: map<string, nat>): nat
    decreases |m|
  {
    if m == map[] then 0
    else
      var k :| k in m;
      m[k] + Sum(m - {k})
  }

  lemma {:induction false} SumIsSize(m: map<string, nat>, ms: multiset<string>)
    requires forall k :: ms[k] == Used(m, k)
    ensures Sum(m) == |ms|
    decreases |m|
  {
    if m == map[] {
      assert ms == multiset{};
    } else {
      var k :| k in m && Sum(m) == m[k] + Sum(m - {k});
      SumIsSize(m - {k}, ms[k := 0]);
    }
  }

  predicate OneTokenPerId(tokens: map<string, LocalClaims>) {
    forall a, b :: a in tokens && b in tokens && tokens[a].jti == tokens[b].jti ==> tokens[a] == tokens[b]
  }

  function Credit(approvals: map<string, LocalApproval>, id: string): nat {
    if id in approvals && approvals[id].status == Approved then 1 else 0
  }

  /** An execution that needed a human used an approval of the same token, tool and payload. */
  predicate Justified(g: Go, approvals: map<string, LocalApproval>) {
    && (g.gated <==> g.via.Some?)
    && (g.via.Some? ==>
          && g.via.value in approvals && approvals[g.via.value].jti == g.jti
          && approvals[g.via.value].tool == g.tool && PayloadMatches(approvals[g.via.value].payload, g.payload))
  }

  /** Entries are numbered; plain ALLOW entries, counters and request sets all tell the same history. */
  predicate Numbered(audit: seq<Entry>, counter: nat) {
    counter == |audit| && forall i :: 0 <= i < |audit| ==> audit[i].id == i + 1
  }

  ghost predicate Counts(gone: seq<Go>, actions: map<string, nat>, completed: map<string, set<string>>) {
    && (forall jti :: Used(actions, jti) == Jtis(gone)[jti])
    && (forall jti :: |CompletedFor(completed, jti)| <= Used(actions, jti))
  }

  predicate Bounded(tokens: map<string, LocalClaims>, actions: map<string, nat>) {
    forall t :: t in tokens && tokens[t].limits.maxActions.Some? ==>
      Used(actions, tokens[t].jti) == 0 || Used(actions, tokens[t].jti) <= tokens[t].limits.maxActions.value
  }

  ghost predicate Credited(gone: seq<Go>, approvals: map<string, LocalApproval>, calls: multiset<string>) {
    && (forall id :: Through(gone, id) + Credit(approvals, id) <= calls[id])
    && (forall i :: 0 <= i < |gone| ==> Justified(gone[i], approvals))
  }

  lemma RequestsAfterGo(actions: map<string, nat>, completed: map<string, set<string>>, jti: string, id: Option<string>)
    requires forall j :: |CompletedFor(completed, j)| <= Used(actions, j)
    ensures var more := if id.Some? then completed[jti := CompletedFor(completed, jti) + {id.value}] else completed;
            forall j :: |CompletedFor(more, j)| <= Used(actions[jti := Used(actions, jti) + 1], j)
  {
    if id.Some? {
      var more := completed[jti := CompletedFor(completed, jti) + {id.value}];
      OneMoreAtMost(CompletedFor(completed, jti), id.value);
      forall j ensures |CompletedFor(more, j)| <= Used(actions[jti := Used(actions, jti) + 1], j) {
        if j != jti { assert CompletedFor(more, j) == CompletedFor(completed, j); }
      }
    }
  }

  lemma OneMoreAtMost(s: set<string>, x: string)
    ensures |s + {x}| <= |s| + 1
  {
    if x in s { assert s + {x} == s; }
  }

  lemma CountsAfterGo(gone: seq<Go>, actions: map<string, nat>, completed: map<string, set<string>>, g: Go, id: Option<string>)
    requires Counts(gone, actions, completed)
    ensures Counts(gone + [g], actions[g.jti := Used(actions, g.jti) + 1],
                   if id.Some? then completed[g.jti := CompletedFor(completed, g.jti) + {id.value}] else completed)
  {
    JtisAppend(gone, g);
    RequestsAfterGo(actions, completed, g.jti, id);
  }

  lemma CreditedAfterGo(gone: seq<Go>, approvals: map<string, LocalApproval>, calls: multiset<string>, g: Go)
    requires Credited(gone, approvals, calls) && Justified(g, approvals)
    requires g.via.Some? ==> Through(gone, g.via.value) + Credit(approvals, g.via.value) < calls[g.via.value]
    ensures Credited(gone + [g], approvals, calls)
  {
    forall id ensures Through(gone + [g], id) + Credit(approvals, id) <= calls[id] {
      ThroughAppend(gone, g, id);
    }
  }

  lemma BoundedAfterGo(tokens: map<string, LocalClaims>, actions: map<string, nat>, token: string)
    requires OneTokenPerId(tokens) && Bounded(tokens, actions) && token in tokens
    requires tokens[token].limits.maxActions.Some? ==>
               Used(actions, tokens[token].jti) < tokens[token].limits.maxActions.value
    ensures Bounded(tokens, actions[tokens[token].jti := Used(actions, tokens[token].jti) + 1])
  {
  }

  function GoOf(c: LocalClaims, call: Request, via: Option<string>): Go {
    Go(c.jti, call.tool, call.payload, ApprovalGate(c.limits, call.payload).Some?, via)
  }

  function WithRequest(completed: map<string, set<string>>, jti: string, id: Option<string>): map<string, set<string>> {
    if Given(id) then completed[jti := CompletedFor(completed, jti) + {id.value}] else completed
  }

  // ---------------------------------------------------------------- transitions

  predicate FromApproval(why: Why) {
    why == ApprovalMismatch || why == ApprovalWasRejected || why == ApprovalUsed
  }

  /** The audit entry an answer leaves. A refusal over an approval is recorded for the agent the approval names. */
  function EntryOf(b: Book, tokens: map<string, LocalClaims>, call: Request, answer: Answer): Entry {
    var agentId := if call.token in tokens then tokens[call.token].agentId else "";
    var plain := Entry(|b.audit| + 1, agentId, call.tool, Allow, None, Some(call.payload));
    match answer
    case Denied(why) =>
      var refused := plain.(decision := Deny, reason := Some(why));
      if FromApproval(why) && Given(call.approvalId) && call.approvalId.value in b.approvals
      then refused.(agentId := b.approvals[call.approvalId.value].agentId,
                    payload := if why == ApprovalMismatch then Some(call.payload) else None)
      else refused
    case Simulated(_) => plain.(decision := Simulate, reason := Some(PolicyWouldAllow))
    case Replayed => plain.(reason := Some(Replay))
    case ApprovalNeeded(why) => plain.(decision := RequireApproval, reason := Some(why))
    case Allowed(_) => plain
  }

  function UseUp(approvals: map<string, LocalApproval>, via: Option<string>): map<string, LocalApproval> {
    if via.Some? && via.value in approvals then approvals[via.value := approvals[via.value].(status := Consumed)]
    else approvals
  }

  /** The records after an answer: one audit entry, and what going ahead or asking for approval changes. */
  function After(b: Book, tokens: map<string, LocalClaims>, call: Request, answer: Answer, newId: string): Book {
    var noted := b.(audit := b.audit + [EntryOf(b, tokens, call, answer)]);
    if call.token !in tokens then noted
    else
      var c := tokens[call.token];
      match answer
      case Allowed(via) =>
        noted.(actions := b.actions[c.jti := Used(b.actions, c.jti) + 1],
               completed := WithRequest(b.completed, c.jti, call.requestId),
               approvals := UseUp(b.approvals, via))
      case ApprovalNeeded(_) =>
        noted.(approvals := b.approvals[newId := LocalApproval(c.agentId, call.tool, call.payload, Pending, c.jti)])
      case _ => noted
  }

  function GoneAfter(gone: seq<Go>, tokens: map<string, LocalClaims>, call: Request, answer: Answer): seq<Go> {
    if answer.Allowed? && call.token in tokens then gone + [GoOf(tokens[call.token], call, answer.via)] else gone
  }

  /** What every run keeps; `gone` is the history of executions that went ahead, `calls` that of approve calls. */
  ghost predicate Kept(tokens: map<string, LocalClaims>, b: Book, gone: seq<Go>, calls: multiset<string>) {
    && |gone| == PlainAllows(b.audit) && Counts(gone, b.actions, b.completed)
    && Bounded(tokens, b.actions) && Credited(gone, b.approvals, calls)
  }

  lemma UseUpFreesCredit(gone: seq<Go>, approvals: map<string, LocalApproval>, calls: multiset<string>, id: string)
    requires Credited(gone, approvals, calls) && id in approvals && approvals[id].status == Approved
    ensures Credited(gone, UseUp(approvals, Some(id)), calls)
    ensures Through(gone, id) + Credit(UseUp(approvals, Some(id)), id) < calls[id]
  {
    assert Through(gone, id) + Credit(approvals, id) <= calls[id];
  }

  lemma GoIsJustified(b: Book, tokens: map<string, LocalClaims>, call: Request, via: Option<string>)
    requires call.token in tokens && tokens[call.token].tool == call.tool
    requires GatedAnswer(b, tokens[call.token], call) == Allowed(via)
    ensures Justified(GoOf(tokens[call.token], call, via), UseUp(b.approvals, via))
    ensures via.Some? ==> via.value in b.approvals && b.approvals[via.value].status == Approved
  {
  }

  /** An execution that goes ahead keeps every count, bound and credit. */
  lemma GoingAheadKeeps(tokens: map<string, LocalClaims>, b: Book, gone: seq<Go>, calls: multiset<string>,
                        call: Request, c: LocalClaims, via: Option<string>)
    requires OneTokenPerId(tokens) && Kept(tokens, b, gone, calls)
    requires call.token in tokens && tokens[call.token] == c && c.tool == call.tool && !Spent(b, c)
    requires GatedAnswer(b, c, call) == Allowed(via)
    ensures var actions := b.actions[c.jti := Used(b.actions, c.jti) + 1];
            && Counts(gone + [GoOf(c, call, via)], actions, WithRequest(b.completed, c.jti, call.requestId))
            && Bounded(tokens, actions) && Credited(gone + [GoOf(c, call, via)], UseUp(b.approvals, via), calls)
  {
    var g := GoOf(c, call, via);
    CountsAfterGo(gone, b.actions, b.completed, g, if Given(call.requestId) then call.requestId else None);
    BoundedAfterGo(tokens, b.actions, call.token);
    GoIsJustified(b, tokens, call, via);
    if via.Some? { UseUpFreesCredit(gone, b.approvals, calls, via.value); }
    CreditedAfterGo(gone, UseUp(b.approvals, via), calls, g);
  }

  lemma AskingKeepsCredit(gone: seq<Go>, approvals: map<string, LocalApproval>, calls: multiset<string>,
                          newId: string, a: LocalApproval)
    requires Credited(gone, approvals, calls) && newId !in approvals && a.status == Pending
    ensures Credited(gone, approvals[newId := a], calls)
  {
    forall id ensures Through(gone, id) + Credit(approvals[newId := a], id) <= calls[id] {
      assert Through(gone, id) + Credit(approvals, id) <= calls[id];
    }
  }

  /** An answer other than going ahead or asking for approval leaves everything but the audit log. */
  lemma OtherAnswersKeep(tokens: map<string, LocalClaims>, b: Book, gone: seq<Go>, calls: multiset<string>,
                         call: Request, answer: Answer, newId: string)
    requires Kept(tokens, b, gone, calls) && !answer.Allowed? && !answer.ApprovalNeeded?
    ensures Kept(tokens, After(b, tokens, call, answer, newId), gone, calls)
  {
    PlainAllowsAppend(b.audit, EntryOf(b, tokens, call, answer));
  }

  lemma AllowedKeeps(tokens: map<string, LocalClaims>, b: Book, gone: seq<Go>, calls: multiset<string>,
                     call: Request, c: LocalClaims, via: Option<string>, newId: string)
    requires OneTokenPerId(tokens) && Kept(tokens, b, gone, calls)
    requires call.token in tokens && tokens[call.token] == c && c.tool == call.tool && !Spent(b, c)
    requires GatedAnswer(b, c, call) == Allowed(via)
    ensures Kept(tokens, After(b, tokens, call, Allowed(via), newId), gone + [GoOf(c, call, via)], calls)
  {
    PlainAllowsAppend(b.audit, EntryOf(b, tokens, call, Allowed(via)));
    GoingAheadKeeps(tokens, b, gone, calls, call, c, via);
  }

  lemma AskedKeeps(tokens: map<string, LocalClaims>, b: Book, gone: seq<Go>, calls: multiset<string>,
                   call: Request, why: Why, newId: string)
    requires Kept(tokens, b, gone, calls) && newId !in b.approvals && call.token in tokens
    ensures Kept(tokens, After(b, tokens, call, ApprovalNeeded(why), newId), gone, calls)
  {
    var c := tokens[call.token];
    PlainAllowsAppend(b.audit, EntryOf(b, tokens, call, ApprovalNeeded(why)));
    AskingKeepsCredit(gone, b.approvals, calls, newId, LocalApproval(c.agentId, call.tool, call.payload, Pending, c.jti));
  }

  lemma AnswerKeeps(tokens: map<string, LocalClaims>, b: Book, gone: seq<Go>, calls: multiset<string>,
                    call: Request, answer: Answer, newId: string)
    requires OneTokenPerId(tokens) && Kept(tokens, b, gone, calls) && newId !in b.approvals
    requires answer.Allowed? || answer.ApprovalNeeded? ==>
               call.token in tokens && tokens[call.token].tool == call.tool && !Spent(b, tokens[call.token])
               && GatedAnswer(b, tokens[call.token], call) == answer
    ensures Kept(tokens, After(b, tokens, call, answer, newId), GoneAfter(gone, tokens, call, answer), calls)
  {
    if answer.Allowed? {
      AllowedKeeps(tokens, b, gone, calls, call, tokens[call.token], answer.via, newId);
    } else if answer.ApprovalNeeded? {
      AskedKeeps(tokens, b, gone, calls, call, answer.why, newId);
    } else {
      OtherAnswersKeep(tokens, b, gone, calls, call, answer, newId);
    }
  }

  /** Every execution, whatever its answer, keeps the invariant. */
  lemma ExecuteKeeps(tokens: map<string, LocalClaims>, b: Book, gone: seq<Go>, calls: multiset<string>,
                     call: Request, now: int, hour: int, newId: string)
    requires OneTokenPerId(tokens) && Kept(tokens, b, gone, calls) && newId !in b.approvals
    ensures var answer := AnswerTo(b, tokens, call, now, hour);
            Kept(tokens, After(b, tokens, call, answer, newId), GoneAfter(gone, tokens, call, answer), calls)
  {
    AnswerKeeps(tokens, b, gone, calls, call, AnswerTo(b, tokens, call, now, hour), newId);
  }

  lemma ApproveKeeps(tokens: map<string, LocalClaims>, b: Book, gone: seq<Go>, calls: multiset<string>, id: string)
    requires Kept(tokens, b, gone, calls) && id in b.approvals
    ensures Kept(tokens, b.(approvals := b.approvals[id := b.approvals[id].(status := Approved)]), gone, calls + multiset{id})
  {
    var approvals := b.approvals[id := b.approvals[id].(status := Approved)];
    forall other ensures Through(gone, other) + Credit(approvals, other) <= (calls + multiset{id})[other] {
      assert Through(gone, other) + Credit(b.approvals, other) <= calls[other];
    }
  }

  lemma RejectKeeps(tokens: map<string, LocalClaims>, b: Book, gone: seq<Go>, calls: multiset<string>, id: string)
    requires Kept(tokens, b, gone, calls) && id in b.approvals
    ensures Kept(tokens, b.(approvals := b.approvals[id := b.approvals[id].(status := Rejected)]), gone, calls)
  {
    var approvals := b.approvals[id := b.approvals[id].(status := Rejected)];
    forall other ensures Through(gone, other) + Credit(approvals, other) <= calls[other] {
      assert Through(gone, other) + Credit(b.approvals, other) <= calls[other];
    }
  }

  class LocalAcrClient {
    const tokens: map<string, LocalClaims>
    var revoked: set<string>
    var actions: map<string, nat>
    var completed: map<string, set<string>>
    var approvals: map<string, LocalApproval>
    var audit: seq<Entry>
    var auditCounter: nat
    ghost var gone: seq<Go>
    ghost var approveCalls: multiset<string>

    function View(): Book
      reads this
    {
      Book(revoked, actions, completed, approvals, audit)
    }

    ghost predicate Valid()
      reads this
    {
      OneTokenPerId(tokens) && Numbered(audit, auditCounter) && Kept(tokens, View(), gone, approveCalls)
    }

    /** The tokens are those the client's secret verifies. */
    constructor (tokens: map<string, LocalClaims>)
      requires OneTokenPerId(tokens)
      ensures Valid() && this.tokens == tokens && View() == Book({}, map[], map[], map[], [])
      ensures gone == [] && approveCalls == multiset{}
    {
      this.tokens := tokens;
      revoked, actions, completed, approvals, audit, auditCounter := {}, map[], map[], map[], [], 0;
      gone, approveCalls := [], multiset{};
    }

    method RecordEntry(agentId: string, tool: string, decision: Decision, reason: Option<Why>, payload: Option<Payload>)
      requires Numbered(audit, auditCounter)
      modifies this`audit, this`auditCounter
      ensures Numbered(audit, auditCounter)
      ensures audit == old(audit) + [Entry(|old(audit)| + 1, agentId, tool, decision, reason, payload)]
    {
      auditCounter := auditCounter + 1;
      audit := audit + [Entry(auditCounter, agentId, tool, decision, reason, payload)];
    }

    method Deny(agentId: string, tool: string, payload: Option<Payload>, why: Why) returns (r: Answer)
      requires Numbered(audit, auditCounter)
      modifies this`audit, this`auditCounter
      ensures Numbered(audit, auditCounter) && r == Denied(why)
      ensures audit == old(audit) + [Entry(|old(audit)| + 1, agentId, tool, Decision.Deny, Some(why), payload)]
    {
      RecordEntry(agentId, tool, Decision.Deny, Some(why), payload);
      r := Denied(why);
    }

    /** Takes an approved request and marks it used, or says why not. */
    method ResolveApproval(call: Request, jti: string) returns (r: Resolution)
      requires Numbered(audit, auditCounter)
      modifies this`approvals, this`audit, this`auditCounter
      ensures Numbered(audit, auditCounter) && r == Resolve(old(approvals), call, jti)
      ensures approvals == if r.Usable? then UseUp(old(approvals), call.approvalId) else old(approvals)
      ensures audit == old(audit) + if r.Stopped? then
                [Entry(|old(audit)| + 1, r.agentId, call.tool, Decision.Deny, Some(r.why), r.payload)] else []
    {
      if call.approvalId.None? || call.approvalId.value == "" { return Unusable; }
      var id := call.approvalId.value;
      if id !in approvals || approvals[id].jti != jti { return Unusable; }
      var record := approvals[id];
      if record.tool != call.tool || !PayloadMatches(record.payload, call.payload) {
        var _ := Deny(record.agentId, call.tool, Some(call.payload), ApprovalMismatch);
        return Stopped(record.agentId, ApprovalMismatch, Some(call.payload));
      }
      if record.status == Approved {
        approvals := approvals[id := record.(status := Consumed)];
        return Usable(id);
      }
      if record.status == Rejected {
        var _ := Deny(record.agentId, record.tool, None, ApprovalWasRejected);
        return Stopped(record.agentId, ApprovalWasRejected, None);
      }
      if record.status == Consumed {
        var _ := Deny(record.agentId, record.tool, None, ApprovalUsed);
        return Stopped(record.agentId, ApprovalUsed, None);
      }
      r := Unusable;
    }

    method AllowIt(c: LocalClaims, call: Request)
      requires Numbered(audit, auditCounter)
      modifies this`audit, this`auditCounter, this`actions, this`completed
      ensures Numbered(audit, auditCounter)
      ensures actions == old(actions)[c.jti := Used(old(actions), c.jti) + 1]
      ensures completed == WithRequest(old(completed), c.jti, call.requestId)
      ensures audit == old(audit) + [Entry(|old(audit)| + 1, c.agentId, call.tool, Decision.Allow, None, Some(call.payload))]
    {
      if call.requestId.Some? && call.requestId.value != "" {
        completed := completed[c.jti := CompletedFor(completed, c.jti) + {call.requestId.value}];
      }
      actions := actions[c.jti := Used(actions, c.jti) + 1];
      RecordEntry(c.agentId, call.tool, Decision.Allow, None, Some(call.payload));
    }

    /** The checks on the token itself. */
    method CheckToken(c: LocalClaims, call: Request, now: int) returns (r: Option<Answer>)
      requires Numbered(audit, auditCounter) && call.token in tokens && tokens[call.token] == c
      modifies this`audit, this`auditCounter
      ensures Numbered(audit, auditCounter)
      ensures var refusal := Refusal(old(View()), c, call, now);
              if refusal.None? then r == None && audit == old(audit)
              else r == Some(Denied(refusal.value)) && audit == old(audit) + [EntryOf(old(View()), tokens, call, r.value)]
    {
      var refusal: Answer;
      if c.jti in revoked {
        refusal := Deny(c.agentId, call.tool, Some(call.payload), CapabilityRevoked);
        return Some(refusal);
      }
      if c.exp.Some? && now >= c.exp.value {
        refusal := Deny(c.agentId, call.tool, Some(call.payload), TokenExpired);
        return Some(refusal);
      }
      if c.tool != call.tool {
        refusal := Deny(c.agentId, call.tool, Some(call.payload), ToolMismatch);
        return Some(refusal);
      }
      r := None;
    }

    /** From the constraints to the action limit; no answer means the approval gate decides. */
    method PassChecks(c: LocalClaims, call: Request, conditions: seq<Check>, broken: Option<Violation>)
      returns (r: Option<Answer>)
      requires Numbered(audit, auditCounter) && call.token in tokens && tokens[call.token] == c
      modifies this`audit, this`auditCounter
      ensures Numbered(audit, auditCounter)
      ensures r.Some? ==> r.value == AdmittedAnswer(old(View()), c, call, conditions, broken)
      ensures r.Some? ==> forall id :: View() == After(old(View()), tokens, call, r.value, id)
      ensures r.None? ==> audit == old(audit) && AdmittedAnswer(View(), c, call, conditions, broken) == GatedAnswer(View(), c, call)
    {
      var refusal: Answer;
      if broken.Some? {
        refusal := Deny(c.agentId, call.tool, Some(call.payload), Violated(broken.value));
        return Some(refusal);
      }
      if call.simulate {
        RecordEntry(c.agentId, call.tool, Simulate, Some(PolicyWouldAllow), Some(call.payload));
        return Some(Simulated(conditions));
      }
      if call.requestId.Some? && call.requestId.value != "" && call.requestId.value in CompletedFor(completed, c.jti) {
        RecordEntry(c.agentId, call.tool, Allow, Some(Replay), Some(call.payload));
        return Some(Replayed);
      }
      var used := Used(actions, c.jti);
      if c.limits.maxActions.Some? && used >= c.limits.maxActions.value {
        refusal := Deny(c.agentId, call.tool, Some(call.payload), LimitReached(used, c.limits.maxActions.value));
        return Some(refusal);
      }
      r := None;
    }

    /** Files a pending request for approval. */
    method AskFor(c: LocalClaims, call: Request, why: Why, newId: string) returns (r: Answer)
      requires Numbered(audit, auditCounter) && call.token in tokens && tokens[call.token] == c
      modifies this`audit, this`auditCounter, this`approvals
      ensures Numbered(audit, auditCounter)
      ensures r == ApprovalNeeded(why) && View() == After(old(View()), tokens, call, r, newId)
    {
      approvals := approvals[newId := LocalApproval(c.agentId, call.tool, call.payload, Pending, c.jti)];
      RecordEntry(c.agentId, call.tool, RequireApproval, Some(why), Some(call.payload));
      r := ApprovalNeeded(why);
    }

    /** The approval gate, and going ahead. */
    method PassGate(c: LocalClaims, call: Request, newId: string) returns (r: Answer)
      requires Numbered(audit, auditCounter) && call.token in tokens && tokens[call.token] == c && c.tool == call.tool
      modifies this`audit, this`auditCounter, this`actions, this`completed, this`approvals
      ensures Numbered(audit, auditCounter)
      ensures r == GatedAnswer(old(View()), c, call) && View() == After(old(View()), tokens, call, r, newId)
    {
      var gate := ApprovalGate(c.limits, call.payload);
      if gate.None? {
        AllowIt(c, call);
        return Allowed(None);
      }
      var resolved := ResolveApproval(call, c.jti);
      match resolved
      case Stopped(_, why, _) => r := Denied(why);
      case Usable(id) =>
        AllowIt(c, call);
        r := Allowed(Some(id));
      case Unusable =>
        r := AskFor(c, call, gate.value, newId);
    }

    /** One execution: the answer, the records after it, and over every run the counts, bounds and credits hold. */
    method ExecuteSync(call: Request, now: int, hour: int, newId: string) returns (r: Answer)
      requires Valid() && newId !in approvals
      modifies this
      ensures Valid() && approveCalls == old(approveCalls)
      ensures r == AnswerTo(old(View()), tokens, call, now, hour) && View() == After(old(View()), tokens, call, r, newId)
      ensures gone == GoneAfter(old(gone), tokens, call, r)
    {
      ExecuteKeeps(tokens, View(), gone, approveCalls, call, now, hour, newId);
      r := Decide(call, now, hour, newId);
      gone := GoneAfter(gone, tokens, call, r);
    }

    method Decide(call: Request, now: int, hour: int, newId: string) returns (r: Answer)
      requires Numbered(audit, auditCounter)
      modifies this`audit, this`auditCounter, this`actions, this`completed, this`approvals
      ensures Numbered(audit, auditCounter)
      ensures r == AnswerTo(old(View()), tokens, call, now, hour) && View() == After(old(View()), tokens, call, r, newId)
    {
      if call.token !in tokens {
        r := Deny("", call.tool, Some(call.payload), InvalidToken);
        return;
      }
      var c := tokens[call.token];
      var refused := CheckToken(c, call, now);
      if refused.Some? { return refused.value; }
      var conditions, broken := EvaluateConstraints(c.limits, call, hour);
      var early := PassChecks(c, call, conditions, broken);
      if early.Some? { return early.value; }
      r := PassGate(c, call, newId);
    }

    method RevokeSync(jti: string)
      requires Valid()
      modifies this`revoked
      ensures Valid() && revoked == old(revoked) + {jti}
    {
      revoked := revoked + {jti};
    }

    /** Approves from any status: a used approval can be approved again, which is one more call and one more use. */
    method ApproveSync(id: string) returns (known: bool)
      requires Valid()
      modifies this`approvals, this`approveCalls
      ensures Valid() && (known <==> id in old(approvals))
      ensures approvals == if known then old(approvals)[id := old(approvals)[id].(status := Approved)] else old(approvals)
      ensures approveCalls == old(approveCalls) + if known then multiset{id} else multiset{}
    {
      if id !in approvals { return false; }
      ApproveKeeps(tokens, View(), gone, approveCalls, id);
      approvals := approvals[id := approvals[id].(status := Approved)];
      approveCalls := approveCalls + multiset{id};
      known := true;
    }

    method RejectSync(id: string) returns (known: bool)
      requires Valid()
      modifies this`approvals
      ensures Valid() && (known <==> id in old(approvals))
      ensures approvals == if known then old(approvals)[id := old(approvals)[id].(status := Rejected)] else old(approvals)
    {
      if id !in approvals { return false; }
      RejectKeeps(tokens, View(), gone, approveCalls, id);
      approvals := approvals[id := approvals[id].(status := Rejected)];
      known := true;
    }
  }

  // --------------------------------------------------------------- whole runs

  datatype Op =
    | Execute(call: Request, now: int, hour: int, newId: string)
    | Approve(id: string)
    | Reject(id: string)
    | Revoke(jti: string)

  /** The records and what happened so far. */
  datatype Past = Past(book: Book, gone: seq<Go>, calls: multiset<string>)

  function WithStatus(b: Book, id: string, status: Status): Book {
    if id in b.approvals then b.(approvals := b.approvals[id := b.approvals[id].(status := status)]) else b
  }

  /** What each method of the client does to its records and history. */
  function Apply(tokens: map<string, LocalClaims>, p: Past, op: Op): Past {
    match op
    case Execute(call, now, hour, newId) =>
      var answer := AnswerTo(p.book, tokens, call, now, hour);
      Past(After(p.book, tokens, call, answer, newId), GoneAfter(p.gone, tokens, call, answer), p.calls)
    case Approve(id) =>
      Past(WithStatus(p.book, id, Approved), p.gone, if id in p.book.approvals then p.calls + multiset{id} else p.calls)
    case Reject(id) => p.(book := WithStatus(p.book, id, Rejected))
    case Revoke(jti) => p.(book := p.book.(revoked := p.book.revoked + {jti}))
  }

  function Run(tokens: map<string, LocalClaims>, ops: seq<Op>): Past {
    if ops == [] then Past(Book({}, map[], map[], map[], []), [], multiset{})
    else Apply(tokens, Run(tokens, ops[..|ops| - 1]), ops[|ops| - 1])
  }

  /** Every new approval gets an id not used before. */
  predicate FreshIds(tokens: map<string, LocalClaims>, ops: seq<Op>) {
    ops == [] ||
    (&& FreshIds(tokens, ops[..|ops| - 1])
     && (ops[|ops| - 1].Execute? ==> ops[|ops| - 1].newId !in Run(tokens, ops[..|ops| - 1]).book.approvals))
  }

  function ApproveCalls(ops: seq<Op>, id: string): nat {
    if ops == [] then 0 else ApproveCalls(ops[..|ops| - 1], id) + if ops[|ops| - 1] == Approve(id) then 1 else 0
  }

  lemma {:induction false} RunKeeps(tokens: map<string, LocalClaims>, ops: seq<Op>)
    requires OneTokenPerId(tokens) && FreshIds(tokens, ops)
    ensures Kept(tokens, Run(tokens, ops).book, Run(tokens, ops).gone, Run(tokens, ops).calls)
  {
    if ops != [] {
      var before := Run(tokens, ops[..|ops| - 1]);
      RunKeeps(tokens, ops[..|ops| - 1]);
      match ops[|ops| - 1]
      case Execute(call, now, hour, newId) =>
        ExecuteKeeps(tokens, before.book, before.gone, before.calls, call, now, hour, newId);
      case Approve(id) =>
        if id in before.book.approvals { ApproveKeeps(tokens, before.book, before.gone, before.calls, id); }
      case Reject(id) =>
        if id in before.book.approvals { RejectKeeps(tokens, before.book, before.gone, before.calls, id); }
      case Revoke(_) =>
    }
  }

  lemma {:induction false} CallsAreCounted(tokens: map<string, LocalClaims>, ops: seq<Op>, id: string)
    ensures Run(tokens, ops).calls[id] <= ApproveCalls(ops, id)
  {
    if ops != [] { CallsAreCounted(tokens, ops[..|ops| - 1], id); }
  }

  /** The counters add up to the plain ALLOW entries of the audit log. */
  lemma ActionsAreTheAllows(tokens: map<string, LocalClaims>, ops: seq<Op>)
    requires OneTokenPerId(tokens) && FreshIds(tokens, ops)
    ensures Sum(Run(tokens, ops).book.actions) == PlainAllows(Run(tokens, ops).book.audit)
  {
    RunKeeps(tokens, ops);
    SumIsSize(Run(tokens, ops).book.actions, Jtis(Run(tokens, ops).gone));
  }

  /** Over every run: executions through an approval never outnumber the calls that approved it, and each matches it. */
  lemma ApprovalsAreNeverOverdrawn(tokens: map<string, LocalClaims>, ops: seq<Op>, id: string)
    requires OneTokenPerId(tokens) && FreshIds(tokens, ops)
    ensures Through(Run(tokens, ops).gone, id) <= ApproveCalls(ops, id)
    ensures forall g :: g in Run(tokens, ops).gone ==> Justified(g, Run(tokens, ops).book.approvals)
  {
    RunKeeps(tokens, ops);
    CallsAreCounted(tokens, ops, id);
  }

  /** Over every run: no token acts more often than its limit, or remembers more requests than it acted on. */
  lemma LimitsHold(tokens: map<string, LocalClaims>, ops: seq<Op>, token: string)
    requires OneTokenPerId(tokens) && FreshIds(tokens, ops) && token in tokens
    ensures var b, c := Run(tokens, ops).book, tokens[token];
            && |CompletedFor(b.completed, c.jti)| <= Used(b.actions, c.jti)
            && (c.limits.maxActions.Some? && c.limits.maxActions.value >= 0 ==>
                  Used(b.actions, c.jti) <= c.limits.maxActions.value)
  {
    RunKeeps(tokens, ops);
  }

  lemma ApplyKeepsRevoked(tokens: map<string, LocalClaims>, p: Past, op: Op)
    ensures p.book.revoked <= Apply(tokens, p, op).book.revoked
  {
  }

  lemma {:induction false} RevokedStays(tokens: map<string, LocalClaims>, ops: seq<Op>, n: nat, jti: string)
    requires n <= |ops| && jti in Run(tokens, ops[..n]).book.revoked
    ensures jti in Run(tokens, ops).book.revoked
  {
    if n == |ops| {
      assert ops[..n] == ops;
    } else {
      var before := ops[..|ops| - 1];
      assert before[..n] == ops[..n];
      RevokedStays(tokens, before, n, jti);
      ApplyKeepsRevoked(tokens, Run(tokens, before), ops[|ops| - 1]);
    }
  }

  /** Over every run: once revoked, a token gets no other answer than that it is revoked. */
  lemma RevokedStaysRefused(tokens: map<string, LocalClaims>, ops: seq<Op>, n: nat, call: Request, now: int, hour: int)
    requires n <= |ops| && call.token in tokens && tokens[call.token].jti in Run(tokens, ops[..n]).book.revoked
    ensures AnswerTo(Run(tokens, ops).book, tokens, call, now, hour) == Denied(CapabilityRevoked)
  {
    RevokedStays(tokens, ops, n, tokens[call.token].jti);
  }

  /** A request that went ahead is answered as a replay when it is repeated, and that changes nothing but the audit log. */
  lemma GoneRequestsReplay(b: Book, tokens: map<string, LocalClaims>, call: Request, now: int, hour: int, newId: string)
    requires Given(call.requestId) && AnswerTo(b, tokens, call, now, hour).Allowed?
    ensures var after := After(b, tokens, call, AnswerTo(b, tokens, call, now, hour), newId);
            && AnswerTo(after, tokens, call, now, hour) == Replayed
            && after.(audit := []) == After(after, tokens, call, Replayed, newId).(audit := [])
  {
  }
}
