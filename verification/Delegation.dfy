/** The delegation check, and exactly when passing it keeps a child within its parent. */
module Delegation {
  import opened Prelude
  import opened Policy
  import opened Compiler

  datatype Field =
    | MaxActionsField
    | AllowedDomainsField
    | AllowedMethodsField
    | AllowedUrlsField
    | AttachmentsField
    | AllowedHoursField
    | SpendingLimitField
    | ApprovalRequiredField
    | IntentCategoriesField
    | IntentActionsField

  // ------------------------------------------------------------------ the check

  predicate LowerSubset(parent: seq<string>, child: seq<string>) {
    forall s :: s in child ==> Lower(s) in LowerAll(parent)
  }

  predicate UpperSubset(parent: seq<string>, child: seq<string>) {
    forall s :: s in child ==> Upper(s) in UpperAll(parent)
  }

  predicate UrlSubset(parent: seq<string>, child: seq<string>) {
    forall u :: u in child ==> exists p :: p in parent && HostWithin(Lower(u), Lower(p))
  }

  /** Whether the check reports a violation of one field. */
  predicate Violates(f: Field, p: ConstraintSet, c: ConstraintSet) {
    match f
    case MaxActionsField => p.maxActions.Some? && c.maxActions.Some? && c.maxActions.value > p.maxActions.value
    case AllowedDomainsField =>
      NonEmpty(p.allowedDomains) && NonEmpty(c.allowedDomains)
      && !LowerSubset(p.allowedDomains.value, c.allowedDomains.value)
    case AllowedMethodsField =>
      NonEmpty(p.allowedMethods) && NonEmpty(c.allowedMethods)
      && !UpperSubset(p.allowedMethods.value, c.allowedMethods.value)
    case AllowedUrlsField =>
      NonEmpty(p.allowedUrls) && NonEmpty(c.allowedUrls) && !UrlSubset(p.allowedUrls.value, c.allowedUrls.value)
    case AttachmentsField => p.attachments == Some(false) && c.attachments == Some(true)
    case AllowedHoursField =>
      p.allowedHours.Some? && c.allowedHours.Some?
      && (c.allowedHours.value.start < p.allowedHours.value.start || c.allowedHours.value.end > p.allowedHours.value.end)
    case SpendingLimitField =>
      p.spendingLimit.Some? && c.spendingLimit.Some? && c.spendingLimit.value > p.spendingLimit.value
    case ApprovalRequiredField => p.approvalRequired == Some(true) && c.approvalRequired != Some(true)
    case IntentCategoriesField =>
      NonEmpty(p.allowedIntentCategories) && NonEmpty(c.allowedIntentCategories)
      && !LowerSubset(p.allowedIntentCategories.value, c.allowedIntentCategories.value)
    case IntentActionsField =>
      NonEmpty(p.allowedIntentActions) && NonEmpty(c.allowedIntentActions)
      && !LowerSubset(p.allowedIntentActions.value, c.allowedIntentActions.value)
  }

  /** The report extended by one field when that field offends. */
  function Flag(reported: seq<Field>, f: Field, p: ConstraintSet, c: ConstraintSet): seq<Field> {
    if Violates(f, p, c) then reported + [f] else reported
  }

  function FlagLimits(p: ConstraintSet, c: ConstraintSet): seq<Field> {
    var counted := Flag([], MaxActionsField, p, c);
    var domains := Flag(counted, AllowedDomainsField, p, c);
    var methods := Flag(domains, AllowedMethodsField, p, c);
    var urls := Flag(methods, AllowedUrlsField, p, c);
    Flag(urls, AttachmentsField, p, c)
  }

  /** What the check reports, in its order. */
  function Violations(p: ConstraintSet, c: ConstraintSet): seq<Field> {
    var hours := Flag(FlagLimits(p, c), AllowedHoursField, p, c);
    var spending := Flag(hours, SpendingLimitField, p, c);
    var approval := Flag(spending, ApprovalRequiredField, p, c);
    var categories := Flag(approval, IntentCategoriesField, p, c);
    Flag(categories, IntentActionsField, p, c)
  }

  /** The fields up to attachments, pushed as they offend. */
  method CheckLimits(parent: ConstraintSet, child: ConstraintSet) returns (violations: seq<Field>)
    ensures violations == FlagLimits(parent, child)
  {
    violations := [];
    ghost var before := violations;
    if parent.maxActions.Some? && child.maxActions.Some? {
      if child.maxActions.value > parent.maxActions.value {
        violations := violations + [MaxActionsField];
      }
    }
    assert violations == Flag(before, MaxActionsField, parent, child);
    before := violations;
    if NonEmpty(parent.allowedDomains) && NonEmpty(child.allowedDomains) {
      if !LowerSubset(parent.allowedDomains.value, child.allowedDomains.value) {
        violations := violations + [AllowedDomainsField];
      }
    }
    assert violations == Flag(before, AllowedDomainsField, parent, child);
    before := violations;
    if NonEmpty(parent.allowedMethods) && NonEmpty(child.allowedMethods) {
      if !UpperSubset(parent.allowedMethods.value, child.allowedMethods.value) {
        violations := violations + [AllowedMethodsField];
      }
    }
    assert violations == Flag(before, AllowedMethodsField, parent, child);
    before := violations;
    if NonEmpty(parent.allowedUrls) && NonEmpty(child.allowedUrls) {
      if !UrlSubset(parent.allowedUrls.value, child.allowedUrls.value) {
        violations := violations + [AllowedUrlsField];
      }
    }
    assert violations == Flag(before, AllowedUrlsField, parent, child);
    before := violations;
    if parent.attachments == Some(false) && child.attachments == Some(true) {
      violations := violations + [AttachmentsField];
    }
    assert violations == Flag(before, AttachmentsField, parent, child);
  }

  /** Pushes one violation per offending field, the fields in their fixed order. */
  method AssertConstraintSubset(parent: ConstraintSet, child: ConstraintSet) returns (violations: seq<Field>)
    ensures violations == Violations(parent, child)
  {
    violations := CheckLimits(parent, child);
    ghost var before := violations;
    if parent.allowedHours.Some? && child.allowedHours.Some? {
      var Hours(ps, pe) := parent.allowedHours.value;
      var Hours(cs, ce) := child.allowedHours.value;
      if cs < ps || ce > pe {
        violations := violations + [AllowedHoursField];
      }
    }
    assert violations == Flag(before, AllowedHoursField, parent, child);
    before := violations;
    if parent.spendingLimit.Some? && child.spendingLimit.Some? {
      if child.spendingLimit.value > parent.spendingLimit.value {
        violations := violations + [SpendingLimitField];
      }
    }
    assert violations == Flag(before, SpendingLimitField, parent, child);
    before := violations;
    if parent.approvalRequired == Some(true) && child.approvalRequired != Some(true) {
      violations := violations + [ApprovalRequiredField];
    }
    assert violations == Flag(before, ApprovalRequiredField, parent, child);
    before := violations;
    if NonEmpty(parent.allowedIntentCategories) && NonEmpty(child.allowedIntentCategories) {
      if !LowerSubset(parent.allowedIntentCategories.value, child.allowedIntentCategories.value) {
        violations := violations + [IntentCategoriesField];
      }
    }
    assert violations == Flag(before, IntentCategoriesField, parent, child);
    before := violations;
    if NonEmpty(parent.allowedIntentActions) && NonEmpty(child.allowedIntentActions) {
      if !LowerSubset(parent.allowedIntentActions.value, child.allowedIntentActions.value) {
        violations := violations + [IntentActionsField];
      }
    }
    assert violations == Flag(before, IntentActionsField, parent, child);
  }

  predicate PassesCheck(p: ConstraintSet, c: ConstraintSet) {
    Violations(p, c) == []
  }

  lemma PassingClearsEveryField(p: ConstraintSet, c: ConstraintSet)
    ensures PassesCheck(p, c) <==> forall f :: !Violates(f, p, c)
  {
    forall f ensures Violates(f, p, c) ==> Violations(p, c) != [] {
    }
  }

  // ------------------------------------------------------------ semantic inclusion

  predicate UpperWord(s: string) {
    s != "" && forall ch :: ch in s ==> 'A' <= ch <= 'Z'
  }

  predicate NoBlank(list: Option<seq<string>>) {
    list.Some? ==> forall s :: s in list.value ==> s != ""
  }

  /** The schema every granted constraint set has passed. */
  predicate ValidSet(c: ConstraintSet) {
    && (c.maxActions.Some? ==> c.maxActions.value > 0)
    && (c.spendingLimit.Some? ==> c.spendingLimit.value >= 0.0)
    && (c.allowedHours.Some? ==> 0 <= c.allowedHours.value.start <= c.allowedHours.value.end <= 23)
    && (c.allowedMethods.Some? ==> forall m :: m in c.allowedMethods.value ==> UpperWord(m))
    && NoBlank(c.allowedDomains) && NoBlank(c.allowedUrls)
    && NoBlank(c.allowedIntentCategories) && NoBlank(c.allowedIntentActions)
  }

  /** Contexts of real executions: an hour of the day; a host is whatever the URL parser gives, in any case. */
  predicate ValidContext(ctx: Context) {
    0 <= ctx.hour <= 23 && !ctx.simulate
  }

  /** Whatever the child's constraints allow, the parent's allow too. */
  ghost predicate Includes(tool: Tool, p: ConstraintSet, c: ConstraintSet) {
    forall ctx :: ValidContext(ctx) && Permits(tool, c, ctx) ==> Permits(tool, p, ctx)
  }

  function FirstHour(c: ConstraintSet): int {
    if c.allowedHours.Some? then c.allowedHours.value.start else 0
  }

  function LastHour(c: ConstraintSet): int {
    if c.allowedHours.Some? then c.allowedHours.value.end else 23
  }

  predicate NarrowHours(p: ConstraintSet, c: ConstraintSet) {
    FirstHour(p) <= FirstHour(c) && LastHour(c) <= LastHour(p)
  }

  predicate Limited(c: ConstraintSet) {
    c.maxActions.Some? && c.maxActions.value < MAX_SAFE_INTEGER
  }

  predicate NarrowCount(p: ConstraintSet, c: ConstraintSet) {
    Limited(p) ==> c.maxActions.Some? && c.maxActions.value <= p.maxActions.value
  }

  predicate NeedsApproval(c: ConstraintSet) {
    c.approvalRequired == Some(true)
  }

  predicate NarrowSpending(p: ConstraintSet, c: ConstraintSet) {
    p.spendingLimit.Some? ==>
      NeedsApproval(c) || (c.spendingLimit.Some? && c.spendingLimit.value <= p.spendingLimit.value)
  }

  predicate NarrowList(p: Option<seq<string>>, c: Option<seq<string>>) {
    NonEmpty(p) ==> NonEmpty(c) && LowerSubset(p.value, c.value)
  }

  /** A domain entry with an `@` in it matches no address. */
  predicate NarrowDomains(p: ConstraintSet, c: ConstraintSet) {
    NonEmpty(p.allowedDomains) ==>
      || NeedsApproval(c)
      || (NonEmpty(c.allowedDomains)
          && forall d :: d in c.allowedDomains.value && '@' !in d ==> Lower(d) in LowerAll(p.allowedDomains.value))
  }

  predicate NarrowMethods(p: ConstraintSet, c: ConstraintSet) {
    NonEmpty(p.allowedMethods) ==>
      NonEmpty(c.allowedMethods) && UpperSubset(p.allowedMethods.value, c.allowedMethods.value)
  }

  /** Entries are compared with hosts as written, so case matters here. */
  predicate UrlsCovered(p: seq<string>, c: seq<string>) {
    forall u :: u in c ==> exists a :: a in p && HostWithin(u, a)
  }

  predicate NarrowUrls(p: ConstraintSet, c: ConstraintSet) {
    NonEmpty(p.allowedUrls) ==> NonEmpty(c.allowedUrls) && UrlsCovered(p.allowedUrls.value, c.allowedUrls.value)
  }

  predicate Narrower(tool: Tool, p: ConstraintSet, c: ConstraintSet) {
    && NarrowHours(p, c) && NarrowCount(p, c) && (NeedsApproval(p) ==> NeedsApproval(c)) && NarrowSpending(p, c)
    && NarrowList(p.allowedIntentCategories, c.allowedIntentCategories)
    && NarrowList(p.allowedIntentActions, c.allowedIntentActions)
    && (tool == GmailSend ==> NarrowDomains(p, c) && (p.attachments == Some(false) ==> c.attachments == Some(false)))
    && (tool == HttpRequest ==> NarrowMethods(p, c) && NarrowUrls(p, c))
  }

  // ------------------------------------------------- narrower limits are included

  lemma InLowerAll(s: string, list: seq<string>)
    ensures s in list ==> Lower(s) in LowerAll(list)
  {
    if s in list {
      var i :| 0 <= i < |list| && list[i] == s;
      assert LowerAll(list)[i] == Lower(s);
    }
  }

  lemma InUpperAll(s: string, list: seq<string>)
    ensures s in list ==> Upper(s) in UpperAll(list)
  {
    if s in list {
      var i :| 0 <= i < |list| && list[i] == s;
      assert UpperAll(list)[i] == Upper(s);
    }
  }

  lemma LowerSubsetMember(p: seq<string>, c: seq<string>, low: string)
    requires LowerSubset(p, c) && low in LowerAll(c)
    ensures low in LowerAll(p)
  {
    var i :| 0 <= i < |c| && LowerAll(c)[i] == low;
    assert c[i] in c;
  }

  lemma UpperSubsetMember(p: seq<string>, c: seq<string>, up: string)
    requires UpperSubset(p, c) && up in UpperAll(c)
    ensures up in UpperAll(p)
  {
    var i :| 0 <= i < |c| && UpperAll(c)[i] == up;
    assert c[i] in c;
  }

  lemma HostWithinTransitive(host: string, u: string, p: string)
    requires HostWithin(host, u) && HostWithin(u, p)
    ensures HostWithin(host, p)
  {
    if host != u && u != p {
      var k := |host| - |u|;
      assert host[k..] == u by {
        assert host[k - 1..] == "." + u;
        assert host[k..] == host[k - 1..][1..];
      }
      assert host[|host| - |"." + p|..] == u[|u| - |"." + p|..];
    }
  }

  lemma ContainsTransitive(s: string, u: string, p: string)
    requires Contains(s, u) && Contains(u, p)
    ensures Contains(s, p)
  {
    var i :| 0 <= i <= |s| && PartAt(s, u, i);
    var j :| 0 <= j <= |u| && PartAt(u, p, j);
    assert u[j..j + |p|] == p && s[i..i + |u|] == u;
    assert forall k :: 0 <= k < |p| ==> s[i + j + k] == s[i..i + |u|][j + k] && p[k] == u[j..j + |p|][k];
    assert s[i + j..i + j + |p|] == p;
    assert PartAt(s, p, i + j);
  }

  lemma WithinIsPart(u: string, a: string)
    requires HostWithin(u, a)
    ensures Contains(u, a)
  {
    if u == a {
      assert PartAt(u, a, 0);
    } else {
      assert u[|u| - |a|..] == u[|u| - |a| - 1..][1..] == a;
      assert PartAt(u, a, |u| - |a|);
    }
  }

  lemma CoveredUrl(p: seq<string>, c: seq<string>, url: Url)
    requires UrlsCovered(p, c)
    requires exists u :: u in c && UrlMatches(url, u)
    ensures exists a :: a in p && UrlMatches(url, a)
  {
    var u :| u in c && UrlMatches(url, u);
    var a :| a in p && HostWithin(u, a);
    match url
    case Unparsed(raw) =>
      WithinIsPart(u, a);
      ContainsTransitive(raw, u, a);
      assert UrlMatches(url, a);
    case Parsed(_, host) =>
      HostWithinTransitive(host, u, a);
      assert UrlMatches(url, a);
  }

  lemma DomainHasNoAt(to: Option<string>)
    ensures EmailDomain(to).Some? ==> '@' !in EmailDomain(to).value
  {
  }

  lemma LowerKeepsAt(d: string)
    ensures '@' in Lower(d) <==> '@' in d
  {
    if '@' in d {
      var i :| 0 <= i < |d| && d[i] == '@';
      assert Lower(d)[i] == '@';
    }
  }

  lemma NarrowDomainsIncluded(p: ConstraintSet, c: ConstraintSet, ctx: Context)
    requires NarrowDomains(p, c) && ApprovalOk(c, ctx) && DomainOk(c, ctx)
    ensures DomainOk(p, ctx)
  {
    DomainHasNoAt(ctx.payload.to);
    if NonEmpty(p.allowedDomains) && !ctx.approvalGranted && EmailDomain(ctx.payload.to).Some? {
      var domain := EmailDomain(ctx.payload.to).value;
      if domain in LowerAll(c.allowedDomains.value) {
        var i :| 0 <= i < |c.allowedDomains.value| && LowerAll(c.allowedDomains.value)[i] == domain;
        LowerKeepsAt(c.allowedDomains.value[i]);
        assert c.allowedDomains.value[i] in c.allowedDomains.value;
      }
    }
  }

  lemma NarrowerIsIncluded(tool: Tool, p: ConstraintSet, c: ConstraintSet, ctx: Context)
    requires ValidContext(ctx) && Narrower(tool, p, c) && Permits(tool, c, ctx)
    ensures Permits(tool, p, ctx)
  {
    if NonEmpty(p.allowedIntentCategories) {
      LowerSubsetMember(p.allowedIntentCategories.value, c.allowedIntentCategories.value, Lower(ctx.intent.value.category));
    }
    if NonEmpty(p.allowedIntentActions) {
      LowerSubsetMember(p.allowedIntentActions.value, c.allowedIntentActions.value, Lower(ctx.intent.value.action.value));
    }
    if tool == GmailSend {
      NarrowDomainsIncluded(p, c, ctx);
    }
    if tool == HttpRequest && NonEmpty(p.allowedMethods) {
      UpperSubsetMember(p.allowedMethods.value, c.allowedMethods.value, Method(ctx.payload));
    }
    if tool == HttpRequest && NonEmpty(p.allowedUrls) && ctx.payload.url.Some? {
      CoveredUrl(p.allowedUrls.value, c.allowedUrls.value, ctx.payload.url.value);
    }
  }

  // -------------------------------------- every wider limit has a context to show it

  function BaseIntent(c: ConstraintSet): Option<Intent> {
    if !NonEmpty(c.allowedIntentCategories) && !NonEmpty(c.allowedIntentActions) then None
    else Some(Intent(
      if NonEmpty(c.allowedIntentCategories) then c.allowedIntentCategories.value[0] else "task",
      if NonEmpty(c.allowedIntentActions) then Some(c.allowedIntentActions.value[0]) else None))
  }

  /** The least a caller can present and still be allowed by `c`. */
  function Base(tool: Tool, c: ConstraintSet): Context {
    var verb := if NonEmpty(c.allowedMethods) then Some(c.allowedMethods.value[0]) else None;
    Context(tool, Payload(None, None, false, verb, None, ""), 0, NeedsApproval(c), FirstHour(c), false, BaseIntent(c))
  }

  lemma BaseIsPermitted(tool: Tool, c: ConstraintSet)
    requires ValidSet(c)
    ensures ValidContext(Base(tool, c)) && Permits(tool, c, Base(tool, c))
  {
    if NonEmpty(c.allowedIntentCategories) {
      InLowerAll(c.allowedIntentCategories.value[0], c.allowedIntentCategories.value);
    }
    if NonEmpty(c.allowedIntentActions) {
      InLowerAll(c.allowedIntentActions.value[0], c.allowedIntentActions.value);
      assert c.allowedIntentActions.value[0] in c.allowedIntentActions.value;
    }
    if NonEmpty(c.allowedMethods) {
      InUpperAll(c.allowedMethods.value[0], c.allowedMethods.value);
    }
  }

  /** A word no entry of the list equals, whatever the case. */
  function Stranger(list: seq<string>): (s: string)
    ensures s != "" && Lower(s) !in LowerAll(list) && Upper(s) !in UpperAll(list)
    ensures '@' !in s
  {
    var s := Repeat('z', MaxLength(list) + 1);
    assert forall t :: t in LowerAll(list) ==> |t| < |s| by {
      forall t | t in LowerAll(list) ensures |t| < |s| {
        var i :| 0 <= i < |list| && LowerAll(list)[i] == t;
        assert list[i] in list;
      }
    }
    assert forall t :: t in UpperAll(list) ==> |t| < |s| by {
      forall t | t in UpperAll(list) ensures |t| < |s| {
        var i :| 0 <= i < |list| && UpperAll(list)[i] == t;
        assert list[i] in list;
      }
    }
    s
  }

  /** An entry of the child's list the parent's lacks; any stranger when the child has no list. */
  function Outsider(p: seq<string>, c: Option<seq<string>>): (s: string)
    requires NonEmpty(c) ==> !LowerSubset(p, c.value)
    ensures Lower(s) !in LowerAll(p)
    ensures NonEmpty(c) ==> s in c.value
    ensures !NonEmpty(c) ==> s != ""
  {
    if NonEmpty(c) then FirstOutside(p, c.value) else Stranger(p)
  }

  function FirstOutside(p: seq<string>, c: seq<string>): (s: string)
    requires !LowerSubset(p, c)
    ensures s in c && Lower(s) !in LowerAll(p)
  {
    if Lower(c[0]) !in LowerAll(p) then c[0] else FirstOutside(p, c[1..])
  }

  lemma EscapeNumbers(tool: Tool, p: ConstraintSet, c: ConstraintSet) returns (ctx: Context)
    requires ValidSet(p) && ValidSet(c)
    requires !(NarrowHours(p, c) && NarrowCount(p, c) && (NeedsApproval(p) ==> NeedsApproval(c)) && NarrowSpending(p, c))
    ensures ValidContext(ctx) && Permits(tool, c, ctx) && !Permits(tool, p, ctx)
  {
    BaseIsPermitted(tool, c);
    ctx := Base(tool, c);
    if LastHour(c) > LastHour(p) {
      ctx := ctx.(hour := LastHour(c));
    } else if !NarrowCount(p, c) {
      ctx := ctx.(actionCount := p.maxActions.value);
    } else if !NarrowSpending(p, c) {
      var amount := if c.spendingLimit.Some? then c.spendingLimit.value else p.spendingLimit.value + 1.0;
      ctx := ctx.(payload := ctx.payload.(amount := Some(amount)));
    }
  }

  lemma EscapeIntents(tool: Tool, p: ConstraintSet, c: ConstraintSet) returns (ctx: Context)
    requires ValidSet(p) && ValidSet(c)
    requires !(NarrowList(p.allowedIntentCategories, c.allowedIntentCategories)
               && NarrowList(p.allowedIntentActions, c.allowedIntentActions))
    ensures ValidContext(ctx) && Permits(tool, c, ctx) && !Permits(tool, p, ctx)
  {
    BaseIsPermitted(tool, c);
    ctx := Base(tool, c);
    if !NarrowList(p.allowedIntentCategories, c.allowedIntentCategories) {
      var category := Outsider(p.allowedIntentCategories.value, c.allowedIntentCategories);
      if NonEmpty(c.allowedIntentCategories) {
        InLowerAll(category, c.allowedIntentCategories.value);
      }
      var action := if BaseIntent(c).Some? then BaseIntent(c).value.action else None;
      ctx := ctx.(intent := Some(Intent(category, action)));
    } else {
      var action := Outsider(p.allowedIntentActions.value, c.allowedIntentActions);
      if NonEmpty(c.allowedIntentActions) {
        InLowerAll(action, c.allowedIntentActions.value);
      }
      var category := if BaseIntent(c).Some? then BaseIntent(c).value.category else "task";
      ctx := ctx.(intent := Some(Intent(category, Some(action))));
    }
  }

  lemma DomainOfAddress(d: string)
    requires '@' !in d
    ensures EmailDomain(Some("x@" + d)) == Some(Lower(d))
  {
    var address := "x@" + d;
    assert address[1] == '@' && forall i :: 2 <= i < |address| ==> address[i] == d[i - 2] && address[i] != '@';
    assert LastIndexOf(address, '@') == 1;
    assert address[2..] == d;
  }

  lemma EscapeDomains(p: ConstraintSet, c: ConstraintSet) returns (ctx: Context)
    requires ValidSet(p) && ValidSet(c) && !NarrowDomains(p, c)
    ensures ValidContext(ctx) && Permits(GmailSend, c, ctx) && !Permits(GmailSend, p, ctx)
  {
    BaseIsPermitted(GmailSend, c);
    ctx := Base(GmailSend, c);
    var d: string;
    if NonEmpty(c.allowedDomains) {
      d :| d in c.allowedDomains.value && '@' !in d && Lower(d) !in LowerAll(p.allowedDomains.value);
      InLowerAll(d, c.allowedDomains.value);
    } else {
      d := Stranger(p.allowedDomains.value);
    }
    DomainOfAddress(d);
    assert d != "" && |Lower(d)| == |d|;
    ctx := ctx.(payload := ctx.payload.(to := Some("x@" + d)));
  }

  lemma EscapeGmail(p: ConstraintSet, c: ConstraintSet) returns (ctx: Context)
    requires ValidSet(p) && ValidSet(c)
    requires !NarrowDomains(p, c) || (p.attachments == Some(false) && c.attachments != Some(false))
    ensures ValidContext(ctx) && Permits(GmailSend, c, ctx) && !Permits(GmailSend, p, ctx)
  {
    if !NarrowDomains(p, c) {
      ctx := EscapeDomains(p, c);
    } else {
      BaseIsPermitted(GmailSend, c);
      ctx := Base(GmailSend, c);
      ctx := ctx.(payload := ctx.payload.(attachments := true));
    }
  }

  lemma EscapeHttp(p: ConstraintSet, c: ConstraintSet) returns (ctx: Context)
    requires ValidSet(p) && ValidSet(c)
    requires !NarrowMethods(p, c) || !NarrowUrls(p, c)
    ensures ValidContext(ctx) && Permits(HttpRequest, c, ctx) && !Permits(HttpRequest, p, ctx)
  {
    BaseIsPermitted(HttpRequest, c);
    ctx := Base(HttpRequest, c);
    if !NarrowMethods(p, c) {
      var verb: string;
      if NonEmpty(c.allowedMethods) {
        verb :| verb in c.allowedMethods.value && Upper(verb) !in UpperAll(p.allowedMethods.value);
        InUpperAll(verb, c.allowedMethods.value);
      } else {
        verb := Stranger(p.allowedMethods.value);
      }
      ctx := ctx.(payload := ctx.payload.(verb := Some(verb)));
    } else {
      var url := EscapingUrl(p.allowedUrls.value, c.allowedUrls);
      ctx := ctx.(payload := ctx.payload.(url := Some(url)));
    }
  }

  lemma EscapingUrl(p: seq<string>, c: Option<seq<string>>) returns (url: Url)
    requires NonEmpty(c) ==> !UrlsCovered(p, c.value)
    ensures NonEmpty(c) ==> exists u :: u in c.value && UrlMatches(url, u)
    ensures forall a :: a in p ==> a != "" ==> !UrlMatches(url, a)
  {
    if NonEmpty(c) {
      var u :| u in c.value && !exists a :: a in p && HostWithin(u, a);
      url := Parsed(u, u);
      assert UrlMatches(url, u);
    } else {
      url := Unparsed("");
    }
  }

  lemma Escape(tool: Tool, p: ConstraintSet, c: ConstraintSet) returns (ctx: Context)
    requires ValidSet(p) && ValidSet(c) && !Narrower(tool, p, c)
    ensures ValidContext(ctx) && Permits(tool, c, ctx) && !Permits(tool, p, ctx)
  {
    if tool == GmailSend && (!NarrowDomains(p, c) || (p.attachments == Some(false) && c.attachments != Some(false))) {
      ctx := EscapeGmail(p, c);
    } else if tool == HttpRequest && (!NarrowMethods(p, c) || !NarrowUrls(p, c)) {
      ctx := EscapeHttp(p, c);
    } else if !(NarrowList(p.allowedIntentCategories, c.allowedIntentCategories)
                && NarrowList(p.allowedIntentActions, c.allowedIntentActions)) {
      ctx := EscapeIntents(tool, p, c);
    } else {
      ctx := EscapeNumbers(tool, p, c);
    }
  }

  /** Narrower limits, field by field, are exactly the included ones: no rule is missing and none is too strict. */
  lemma InclusionIsNarrowing(tool: Tool, p: ConstraintSet, c: ConstraintSet)
    requires ValidSet(p) && ValidSet(c)
    ensures Includes(tool, p, c) <==> Narrower(tool, p, c)
  {
    if Narrower(tool, p, c) {
      forall ctx | ValidContext(ctx) && Permits(tool, c, ctx) ensures Permits(tool, p, ctx) {
        NarrowerIsIncluded(tool, p, c, ctx);
      }
    } else {
      var ctx := Escape(tool, p, c);
    }
  }

  // ------------------------------------------------------- what the check secures

  /** The child repeats every limit its parent sets, and writes URL entries in the parent's case. */
  predicate NothingOmitted(tool: Tool, p: ConstraintSet, c: ConstraintSet) {
    && (p.allowedHours.Some? && p.allowedHours.value != Hours(0, 23) ==> c.allowedHours.Some?)
    && (Limited(p) ==> c.maxActions.Some?)
    && (p.spendingLimit.Some? ==> c.spendingLimit.Some? || NeedsApproval(c))
    && (NonEmpty(p.allowedIntentCategories) ==> NonEmpty(c.allowedIntentCategories))
    && (NonEmpty(p.allowedIntentActions) ==> NonEmpty(c.allowedIntentActions))
    && (tool == GmailSend ==>
          && (NonEmpty(p.allowedDomains) ==> NonEmpty(c.allowedDomains) || NeedsApproval(c))
          && (p.attachments == Some(false) ==> c.attachments.Some?))
    && (tool == HttpRequest ==>
          && (NonEmpty(p.allowedMethods) ==> NonEmpty(c.allowedMethods))
          && NarrowUrls(p, c))
  }

  /** The check on its own secures inclusion exactly when the child omits nothing. */
  lemma CheckedDelegationIsExact(tool: Tool, p: ConstraintSet, c: ConstraintSet)
    requires ValidSet(p) && ValidSet(c) && PassesCheck(p, c)
    ensures Includes(tool, p, c) <==> NothingOmitted(tool, p, c)
  {
    InclusionIsNarrowing(tool, p, c);
    PassingClearsEveryField(p, c);
    assert !Violates(AllowedHoursField, p, c) && !Violates(MaxActionsField, p, c) && !Violates(ApprovalRequiredField, p, c);
    assert NarrowHours(p, c) <==> (p.allowedHours.Some? && p.allowedHours.value != Hours(0, 23) ==> c.allowedHours.Some?);
    assert !Violates(SpendingLimitField, p, c) && !Violates(AttachmentsField, p, c);
    if c.attachments.Some? {
      assert c.attachments == if c.attachments.value then Some(true) else Some(false);
    }
    assert !Violates(IntentCategoriesField, p, c) && !Violates(IntentActionsField, p, c);
    assert !Violates(AllowedDomainsField, p, c) && !Violates(AllowedMethodsField, p, c);
    assert NarrowDomains(p, c) <==> (NonEmpty(p.allowedDomains) ==> NonEmpty(c.allowedDomains) || NeedsApproval(c));
  }

  predicate LowerEntries(list: Option<seq<string>>) {
    list.Some? ==> forall u :: u in list.value ==> Lower(u) == u
  }

  /** With lower-case URL entries on both sides the check itself covers the URL list. */
  lemma LowerCaseUrlsAreCovered(p: ConstraintSet, c: ConstraintSet)
    requires PassesCheck(p, c) && LowerEntries(p.allowedUrls) && LowerEntries(c.allowedUrls)
    requires NonEmpty(p.allowedUrls) ==> NonEmpty(c.allowedUrls)
    ensures NarrowUrls(p, c)
  {
    PassingClearsEveryField(p, c);
    if NonEmpty(p.allowedUrls) {
      assert !Violates(AllowedUrlsField, p, c);
      forall u | u in c.allowedUrls.value
        ensures exists a :: a in p.allowedUrls.value && HostWithin(u, a)
      {
        var a :| a in p.allowedUrls.value && HostWithin(Lower(u), Lower(a));
        assert HostWithin(u, a);
      }
    }
  }

  /** A child that leaves out its parent's action limit passes the check and may act where the parent may not. */
  lemma OmittedLimitEscapes() returns (parent: ConstraintSet, child: ConstraintSet, ctx: Context)
    ensures ValidSet(parent) && ValidSet(child) && PassesCheck(parent, child) && ValidContext(ctx)
    ensures Permits(SlackSend, child, ctx) && !Permits(SlackSend, parent, ctx)
  {
    child := ConstraintSet(None, None, None, None, None, None, None, None, None, None, None);
    parent := child.(maxActions := Some(3));
    ctx := Context(SlackSend, Payload(None, None, false, None, None, ""), 3, false, 12, false, None);
  }

  /** The same for a URL entry that differs from the parent's only in case. */
  lemma UrlCaseEscapes() returns (parent: ConstraintSet, child: ConstraintSet, ctx: Context)
    ensures ValidSet(parent) && ValidSet(child) && PassesCheck(parent, child) && ValidContext(ctx)
    ensures Permits(HttpRequest, child, ctx) && !Permits(HttpRequest, parent, ctx)
  {
    var blank := ConstraintSet(None, None, None, None, None, None, None, None, None, None, None);
    child := blank.(allowedUrls := Some(["a.b"]));
    parent := blank.(allowedUrls := Some(["A.b"]));
    assert Lower("a.b") == "a.b" && Lower("A.b") == "a.b";
    assert "A.b" in parent.allowedUrls.value;
    ctx := Context(HttpRequest, Payload(None, None, false, None, Some(Parsed("https://a.b", "a.b")), ""), 0, false, 12, false, None);
    assert UrlMatches(ctx.payload.url.value, "a.b");
    assert !HostWithin("a.b", "A.b");
  }
}
