/** What a refusal of the delegation check means: no delegation is refused without a reason. */
module Refusals {
  import opened Prelude
  import opened Policy
  import opened Delegation
  import opened Tokens

  const NO_LIMITS := ConstraintSet(None, None, None, None, None, None, None, None, None, None, None)

  /** A constraint set cut down to one field. */
  function Only(f: Field, c: ConstraintSet): ConstraintSet {
    match f
    case MaxActionsField => NO_LIMITS.(maxActions := c.maxActions)
    case AllowedDomainsField => NO_LIMITS.(allowedDomains := c.allowedDomains)
    case AllowedMethodsField => NO_LIMITS.(allowedMethods := c.allowedMethods)
    case AllowedUrlsField => NO_LIMITS.(allowedUrls := c.allowedUrls)
    case AttachmentsField => NO_LIMITS.(attachments := c.attachments)
    case AllowedHoursField => NO_LIMITS.(allowedHours := c.allowedHours)
    case SpendingLimitField => NO_LIMITS.(spendingLimit := c.spendingLimit)
    case ApprovalRequiredField => NO_LIMITS.(approvalRequired := c.approvalRequired)
    case IntentCategoriesField => NO_LIMITS.(allowedIntentCategories := c.allowedIntentCategories)
    case IntentActionsField => NO_LIMITS.(allowedIntentActions := c.allowedIntentActions)
  }

  predicate SetsList(list: Option<seq<string>>) {
    list.Some? && list.value != []
  }

  /** Whether the set says something about a field; an empty list does not. */
  predicate Sets(f: Field, c: ConstraintSet) {
    match f
    case MaxActionsField => c.maxActions.Some?
    case AllowedDomainsField => SetsList(c.allowedDomains)
    case AllowedMethodsField => SetsList(c.allowedMethods)
    case AllowedUrlsField => SetsList(c.allowedUrls)
    case AttachmentsField => c.attachments.Some?
    case AllowedHoursField => c.allowedHours.Some?
    case SpendingLimitField => c.spendingLimit.Some?
    case ApprovalRequiredField => true
    case IntentCategoriesField => SetsList(c.allowedIntentCategories)
    case IntentActionsField => SetsList(c.allowedIntentActions)
  }

  /** With this field alone, some tool lets the child do what it does not let the parent do. */
  ghost predicate Widens(f: Field, p: ConstraintSet, c: ConstraintSet) {
    exists tool :: !Includes(tool, Only(f, p), Only(f, c))
  }

  /** Entries that mean to the check what they mean to the evaluator. */
  predicate Usual(p: ConstraintSet, c: ConstraintSet) {
    && (p.maxActions.Some? ==> p.maxActions.value < MAX_SAFE_INTEGER)
    && (c.allowedDomains.Some? ==> forall d :: d in c.allowedDomains.value ==> '@' !in d)
    && LowerEntries(p.allowedUrls) && LowerEntries(c.allowedUrls)
  }

  lemma OnlyStaysValid(f: Field, c: ConstraintSet)
    requires ValidSet(c)
    ensures ValidSet(Only(f, c))
  {
  }

  lemma WidensIsNotNarrower(f: Field, p: ConstraintSet, c: ConstraintSet)
    requires ValidSet(p) && ValidSet(c)
    ensures Widens(f, p, c) <==> exists tool :: !Narrower(tool, Only(f, p), Only(f, c))
  {
    OnlyStaysValid(f, p);
    OnlyStaysValid(f, c);
    forall tool ensures Includes(tool, Only(f, p), Only(f, c)) <==> Narrower(tool, Only(f, p), Only(f, c)) {
      InclusionIsNarrowing(tool, Only(f, p), Only(f, c));
    }
  }

  lemma SameUrls(p: seq<string>, c: seq<string>)
    requires (forall u :: u in p ==> Lower(u) == u) && (forall u :: u in c ==> Lower(u) == u)
    ensures UrlSubset(p, c) <==> UrlsCovered(p, c)
  {
    if UrlSubset(p, c) {
      forall u | u in c ensures exists a :: a in p && HostWithin(u, a) {
        var a :| a in p && HostWithin(Lower(u), Lower(a));
        assert HostWithin(u, a);
      }
    }
    if UrlsCovered(p, c) {
      forall u | u in c ensures exists a :: a in p && HostWithin(Lower(u), Lower(a)) {
        var a :| a in p && HostWithin(u, a);
        assert HostWithin(Lower(u), Lower(a));
      }
    }
  }

  lemma ViolatesIsWidening(f: Field, p: ConstraintSet, c: ConstraintSet)
    requires ValidSet(p) && ValidSet(c) && Usual(p, c)
    ensures Violates(f, p, c) <==> Sets(f, p) && Sets(f, c) && exists tool :: !Narrower(tool, Only(f, p), Only(f, c))
  {
    var op, oc := Only(f, p), Only(f, c);
    match f
    case AllowedDomainsField =>
      assert Narrower(GmailSend, op, oc) <==> NarrowDomains(op, oc);
      assert forall tool :: tool != GmailSend ==> Narrower(tool, op, oc);
    case AllowedMethodsField =>
      assert Narrower(HttpRequest, op, oc) <==> NarrowMethods(op, oc);
      assert forall tool :: tool != HttpRequest ==> Narrower(tool, op, oc);
    case AllowedUrlsField =>
      if SetsList(p.allowedUrls) && SetsList(c.allowedUrls) { SameUrls(p.allowedUrls.value, c.allowedUrls.value); }
      assert Narrower(HttpRequest, op, oc) <==> NarrowUrls(op, oc);
      assert forall tool :: tool != HttpRequest ==> Narrower(tool, op, oc);
    case AttachmentsField =>
      if c.attachments.Some? { assert c.attachments == if c.attachments.value then Some(true) else Some(false); }
      assert Narrower(GmailSend, op, oc) <==> (p.attachments == Some(false) ==> c.attachments == Some(false));
      assert forall tool :: tool != GmailSend ==> Narrower(tool, op, oc);
    case IntentCategoriesField =>
      assert Narrower(SlackSend, op, oc) <==> NarrowList(p.allowedIntentCategories, c.allowedIntentCategories);
    case IntentActionsField =>
      assert Narrower(SlackSend, op, oc) <==> NarrowList(p.allowedIntentActions, c.allowedIntentActions);
    case AllowedHoursField => assert Narrower(SlackSend, op, oc) <==> NarrowHours(op, oc);
    case SpendingLimitField => assert Narrower(SlackSend, op, oc) <==> NarrowSpending(op, oc);
    case MaxActionsField => assert Narrower(SlackSend, op, oc) <==> NarrowCount(op, oc);
    case ApprovalRequiredField => assert Narrower(SlackSend, op, oc) <==> (NeedsApproval(p) ==> NeedsApproval(c));
  }

  lemma FlagAdds(reported: seq<Field>, g: Field, p: ConstraintSet, c: ConstraintSet, f: Field)
    ensures f in Flag(reported, g, p, c) <==> f in reported || (f == g && Violates(g, p, c))
  {
  }

  lemma ReportedLimits(p: ConstraintSet, c: ConstraintSet, f: Field)
    ensures f in FlagLimits(p, c) <==>
            f in {MaxActionsField, AllowedDomainsField, AllowedMethodsField, AllowedUrlsField, AttachmentsField} && Violates(f, p, c)
  {
    var counted := Flag([], MaxActionsField, p, c);
    var domains := Flag(counted, AllowedDomainsField, p, c);
    var methods := Flag(domains, AllowedMethodsField, p, c);
    FlagAdds([], MaxActionsField, p, c, f);
    FlagAdds(counted, AllowedDomainsField, p, c, f);
    FlagAdds(domains, AllowedMethodsField, p, c, f);
    FlagAdds(methods, AllowedUrlsField, p, c, f);
    FlagAdds(Flag(methods, AllowedUrlsField, p, c), AttachmentsField, p, c, f);
  }

  lemma ReportedIsViolated(p: ConstraintSet, c: ConstraintSet, f: Field)
    ensures f in Violations(p, c) <==> Violates(f, p, c)
  {
    var limits := FlagLimits(p, c);
    var hours := Flag(limits, AllowedHoursField, p, c);
    var spending := Flag(hours, SpendingLimitField, p, c);
    var approval := Flag(spending, ApprovalRequiredField, p, c);
    ReportedLimits(p, c, f);
    FlagAdds(limits, AllowedHoursField, p, c, f);
    FlagAdds(hours, SpendingLimitField, p, c, f);
    FlagAdds(spending, ApprovalRequiredField, p, c, f);
    FlagAdds(approval, IntentCategoriesField, p, c, f);
    FlagAdds(Flag(approval, IntentCategoriesField, p, c), IntentActionsField, p, c, f);
  }

  /**
   * The check reports a field exactly when both sides set it and, by that field alone, the child may do something its
   * parent may not.
   */
  lemma ReportedExactlyWhenWider(p: ConstraintSet, c: ConstraintSet, f: Field)
    requires ValidSet(p) && ValidSet(c) && Usual(p, c)
    ensures f in Violations(p, c) <==> Sets(f, p) && Sets(f, c) && Widens(f, p, c)
  {
    ReportedIsViolated(p, c, f);
    ViolatesIsWidening(f, p, c);
    WidensIsNotNarrower(f, p, c);
  }

  // ------------------------------------------------- narrower children the check refuses

  lemma LowerKeepsWithin(u: string, a: string)
    requires HostWithin(u, a)
    ensures HostWithin(Lower(u), Lower(a))
  {
    if u != a {
      assert Lower("." + a) == "." + Lower(a);
      assert Lower(u)[|u| - |a| - 1..] == Lower(u[|u| - |a| - 1..]);
    }
  }

  lemma CoveredPassesTheCheck(p: seq<string>, c: seq<string>)
    requires UrlsCovered(p, c)
    ensures UrlSubset(p, c)
  {
    forall u | u in c ensures exists a :: a in p && HostWithin(Lower(u), Lower(a)) {
      var a :| a in p && HostWithin(u, a);
      LowerKeepsWithin(u, a);
    }
  }

  /** Fields in which the check asks for more than the evaluator needs. */
  predicate StricterThanNeeded(p: ConstraintSet, c: ConstraintSet) {
    || (p.maxActions.Some? && p.maxActions.value >= MAX_SAFE_INTEGER && c.maxActions.Some?
        && c.maxActions.value > p.maxActions.value)
    || (SetsList(p.allowedDomains) && SetsList(c.allowedDomains)
        && exists d :: d in c.allowedDomains.value && ('@' in d || NeedsApproval(c)) && Lower(d) !in LowerAll(p.allowedDomains.value))
    || (p.spendingLimit.Some? && c.spendingLimit.Some? && NeedsApproval(c) && c.spendingLimit.value > p.spendingLimit.value)
  }

  /**
   * A child whose limits are narrower for every tool passes the check, but for three cases: it raises a limit that is not
   * counted, it lists a domain that matches no address or that its approval already guards, or it raises a spending limit
   * that its approval already guards.
   */
  lemma NarrowerPassesExactly(p: ConstraintSet, c: ConstraintSet)
    requires Narrower(GmailSend, p, c) && Narrower(HttpRequest, p, c)
    ensures PassesCheck(p, c) <==> !StricterThanNeeded(p, c)
  {
    PassingClearsEveryField(p, c);
    NarrowerKeepsLists(p, c);
    NarrowerKeepsNumbers(p, c);
    assert forall f :: Violates(f, p, c) ==> f in {MaxActionsField, AllowedDomainsField, SpendingLimitField};
    if StricterThanNeeded(p, c) {
      assert Violates(MaxActionsField, p, c) || Violates(AllowedDomainsField, p, c) || Violates(SpendingLimitField, p, c);
    }
  }

  lemma NarrowerKeepsNumbers(p: ConstraintSet, c: ConstraintSet)
    requires Narrower(GmailSend, p, c)
    ensures !Violates(AllowedHoursField, p, c) && !Violates(ApprovalRequiredField, p, c) && !Violates(AttachmentsField, p, c)
  {
  }

  lemma NarrowerKeepsLists(p: ConstraintSet, c: ConstraintSet)
    requires Narrower(HttpRequest, p, c)
    ensures !Violates(AllowedMethodsField, p, c) && !Violates(AllowedUrlsField, p, c)
    ensures !Violates(IntentCategoriesField, p, c) && !Violates(IntentActionsField, p, c)
  {
    if SetsList(p.allowedUrls) { CoveredPassesTheCheck(p.allowedUrls.value, c.allowedUrls.value); }
  }

  lemma HostWithinItself(list: seq<string>)
    ensures UrlsCovered(list, list)
  {
    forall u | u in list ensures exists a :: a in list && HostWithin(u, a) {
      assert HostWithin(u, u);
    }
  }

  /** A child with its parent's own limits passes. */
  lemma SameLimitsPass(c: ConstraintSet)
    ensures PassesCheck(c, c)
  {
    if SetsList(c.allowedUrls) { HostWithinItself(c.allowedUrls.value); }
    SubsetOfItself(c.allowedDomains);
    SubsetOfItself(c.allowedMethods);
    SubsetOfItself(c.allowedIntentCategories);
    SubsetOfItself(c.allowedIntentActions);
    NarrowerPassesExactly(c, c);
  }

  lemma SubsetOfItself(list: Option<seq<string>>)
    ensures list.Some? ==> LowerSubset(list.value, list.value) && UpperSubset(list.value, list.value)
  {
    if list.Some? {
      forall s | s in list.value ensures Lower(s) in LowerAll(list.value) && Upper(s) in UpperAll(list.value) {
        InLowerAll(s, list.value);
        InUpperAll(s, list.value);
      }
    }
  }

  /** What delegation asks for besides the subset check. */
  predicate Delegable(parent: Claims, input: GrantInput, s: Signer) {
    && Validate(Success(parent), s.now, s.issuer, Some(input.tool)).Success?
    && Depth(parent) + 1 <= OrElse(s.maxDepth, DEFAULT_MAX_DEPTH) && ValidInput(ChildInput(parent, input))
    && 0 < OrElse(input.expiresIn, DEFAULT_EXPIRES_SEC) <= MAX_EXPIRES_SEC
  }

  /** A delegation that is otherwise in order succeeds with the parent's own limits, and with narrower ones in the usual form. */
  lemma HonestDelegationSucceeds(parent: Claims, input: GrantInput, s: Signer)
    requires Delegable(parent, input, s)
    requires || input.constraints == Limits(parent)
             || (&& Narrower(GmailSend, Limits(parent), input.constraints) && Narrower(HttpRequest, Limits(parent), input.constraints)
                 && Usual(Limits(parent), input.constraints) && !NeedsApproval(input.constraints))
    ensures DelegatedBy(parent, input, s, Granted(ChildInput(parent, input), s.issuer, s.now, s.jti))
  {
    if input.constraints == Limits(parent) {
      SameLimitsPass(input.constraints);
    } else {
      NarrowerPassesExactly(Limits(parent), input.constraints);
    }
  }
}
