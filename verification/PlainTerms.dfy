/** What a compiled policy decides, in plain terms: texts put together and taken apart, nothing of the evaluator's own. */
module PlainTerms {
  import opened Prelude
  import opened Policy
  import opened Compiler

  // ------------------------------------------------------------------------ texts

  const CAPITALS := "ABCDEFGHIJKLMNOPQRSTUVWXYZ"
  const SMALLS := "abcdefghijklmnopqrstuvwxyz"

  /** Folding case exchanges the 26 letters one for one and leaves everything else. */
  lemma LettersFold()
    ensures Lower(CAPITALS) == SMALLS && Upper(SMALLS) == CAPITALS
    ensures forall c :: LowerChar(c) != c ==> c in CAPITALS
    ensures forall c :: UpperChar(c) != c ==> c in SMALLS
  {
    forall c | 'A' <= c <= 'Z' ensures c in CAPITALS {
      assert CAPITALS[c as int - 65] == c;
    }
    forall c | 'a' <= c <= 'z' ensures c in SMALLS {
      assert SMALLS[c as int - 97] == c;
    }
    assert Lower(CAPITALS) == SMALLS;
    assert Upper(SMALLS) == CAPITALS;
  }

  /** The host is the entry, or ends in a dot and the entry: a whole number of labels. */
  ghost predicate Under(host: string, entry: string) {
    host == entry || exists x: string :: host == x + "." + entry
  }

  lemma HostWithinIsUnder(host: string, entry: string)
    ensures HostWithin(host, entry) <==> Under(host, entry)
  {
    if EndsWith(host, "." + entry) {
      var x := host[..|host| - |entry| - 1];
      assert host == x + ("." + entry) == x + "." + entry;
    }
    if x: string :| host == x + "." + entry {
      assert host[|x|..] == "." + entry;
    }
  }

  ghost predicate Holds(s: string, part: string) {
    exists x: string, y: string :: s == x + part + y
  }

  lemma ContainsIsHolds(s: string, part: string)
    ensures Contains(s, part) <==> Holds(s, part)
  {
    if Contains(s, part) {
      var i :| 0 <= i <= |s| && PartAt(s, part, i);
      assert s == s[..i] + part + s[i + |part|..];
    }
    if x: string, y: string :| s == x + part + y {
      assert s[|x|..|x| + |part|] == part;
      assert PartAt(s, part, |x|);
    }
  }

  /** An address is a name, an `@` and a domain without one. */
  ghost predicate AddressAt(address: string, domain: string) {
    '@' !in domain && exists name: string :: address == name + "@" + domain
  }

  lemma Joined(address: string, name: string, domain: string)
    requires address == name + "@" + domain
    ensures |address| == |name| + 1 + |domain| && address[|name|] == '@' && address[|name| + 1..] == domain
  {
    assert address == name + ("@" + domain);
    assert address[|name|..] == "@" + domain;
  }

  lemma LastAtOf(address: string, name: string, domain: string)
    requires address == name + "@" + domain && '@' !in domain
    ensures LastIndexOf(address, '@') == |name|
  {
    Joined(address, name, domain);
    forall i | |name| < i < |address| ensures address[i] != '@' {
      assert address[i] == address[|name| + 1..][i - |name| - 1];
    }
  }

  lemma SplitAt(address: string, at: nat)
    requires at < |address| && address[at] == '@'
    ensures address == address[..at] + "@" + address[at + 1..]
  {
    assert address[at..] == "@" + address[at + 1..];
    assert address == address[..at] + address[at..];
  }

  lemma SplitAtTheLastAt(address: string, at: int)
    requires at == LastIndexOf(address, '@')
    ensures at < 0 <==> '@' !in address
    ensures at >= 0 ==> AddressAt(address, address[at + 1..])
  {
    if at >= 0 {
      SplitAt(address, at);
      var domain := address[at + 1..];
      forall i | 0 <= i < |domain| ensures domain[i] != '@' {
        assert domain[i] == address[at + 1 + i];
      }
    }
  }

  lemma EmailDomainIsBehindTheLastAt(to: Option<string>, domain: string)
    ensures EmailDomain(to).None? <==> to.None? || '@' !in to.value
    ensures to.Some? && AddressAt(to.value, domain) ==> EmailDomain(to) == Some(Lower(domain))
    ensures EmailDomain(to).Some? ==> exists d: string :: AddressAt(to.value, d) && Lower(d) == EmailDomain(to).value
  {
    if to.Some? {
      SplitAtTheLastAt(to.value, LastIndexOf(to.value, '@'));
      if AddressAt(to.value, domain) {
        var name: string :| to.value == name + "@" + domain;
        LastAtOf(to.value, name, domain);
        Joined(to.value, name, domain);
      }
    }
  }

  lemma InLowered(list: seq<string>, s: string)
    ensures Lower(s) in LowerAll(list) <==> exists e :: e in list && Lower(e) == Lower(s)
  {
    if Lower(s) in LowerAll(list) {
      var i :| 0 <= i < |list| && LowerAll(list)[i] == Lower(s);
      assert list[i] in list;
    }
    if e :| e in list && Lower(e) == Lower(s) {
      var i :| 0 <= i < |list| && list[i] == e;
      assert LowerAll(list)[i] == Lower(s);
    }
  }

  lemma InUppered(list: seq<string>, s: string)
    ensures Upper(s) in UpperAll(list) <==> exists e :: e in list && Upper(e) == Upper(s)
  {
    if Upper(s) in UpperAll(list) {
      var i :| 0 <= i < |list| && UpperAll(list)[i] == Upper(s);
      assert list[i] in list;
    }
    if e :| e in list && Upper(e) == Upper(s) {
      var i :| 0 <= i < |list| && list[i] == e;
      assert UpperAll(list)[i] == Upper(s);
    }
  }

  predicate AllBlank(s: string) {
    forall c :: c in s ==> Blank(c)
  }

  /** `core` is the text without the blanks around it. */
  ghost predicate TrimsTo(s: string, core: string) {
    && (core == "" || (!Blank(core[0]) && !Blank(core[|core| - 1])))
    && exists x: string, y: string :: s == x + core + y && AllBlank(x) && AllBlank(y)
  }

  lemma {:induction false} TrimStartSkips(x: string, rest: string)
    requires AllBlank(x) && (rest == "" || !Blank(rest[0]))
    ensures TrimStart(x + rest) == rest
  {
    if x == "" {
      assert x + rest == rest;
    } else {
      assert (x + rest)[0] == x[0] && (x + rest)[1..] == x[1..] + rest && x[0] in x;
      TrimStartSkips(x[1..], rest);
    }
  }

  lemma {:induction false} TrimEndSkips(rest: string, y: string)
    requires AllBlank(y) && (rest == "" || !Blank(rest[|rest| - 1]))
    ensures TrimEnd(rest + y) == rest
    decreases |y|
  {
    if y == "" {
      assert rest + y == rest;
    } else {
      var n := |y| - 1;
      assert (rest + y)[|rest + y| - 1] == y[n] && (rest + y)[..|rest + y| - 1] == rest + y[..n] && y[n] in y;
      TrimEndSkips(rest, y[..n]);
    }
  }

  lemma {:induction false} BlanksAtTheStart(s: string) returns (x: string)
    ensures s == x + TrimStart(s) && AllBlank(x) && (TrimStart(s) == "" || !Blank(TrimStart(s)[0]))
  {
    if s != "" && Blank(s[0]) {
      x := BlanksAtTheStart(s[1..]);
      x := [s[0]] + x;
      assert s == [s[0]] + s[1..];
    } else {
      x := "";
    }
  }

  lemma {:induction false} BlanksAtTheEnd(s: string) returns (y: string)
    ensures s == TrimEnd(s) + y && AllBlank(y) && (TrimEnd(s) == "" || !Blank(TrimEnd(s)[|TrimEnd(s)| - 1]))
    ensures TrimEnd(s) != "" ==> TrimEnd(s)[0] == s[0]
    decreases |s|
  {
    if s != "" && Blank(s[|s| - 1]) {
      y := BlanksAtTheEnd(s[..|s| - 1]);
      y := y + [s[|s| - 1]];
      assert s == s[..|s| - 1] + [s[|s| - 1]];
    } else {
      y := "";
    }
  }

  lemma TrimGivesTheCore(s: string)
    ensures TrimsTo(s, Trim(s))
  {
    var x := BlanksAtTheStart(s);
    var y := BlanksAtTheEnd(TrimStart(s));
    assert s == x + Trim(s) + y;
  }

  lemma BlanksHaveNoCore(s: string)
    requires AllBlank(s)
    ensures Trim(s) == ""
  {
    TrimStartSkips(s, "");
    assert s + "" == s;
  }

  /** Trimming takes away the blanks around a text, and a text has one core. */
  lemma TrimInPlainTerms(s: string, core: string)
    ensures TrimsTo(s, core) <==> core == Trim(s)
  {
    TrimGivesTheCore(s);
    if TrimsTo(s, core) {
      var x: string, y: string :| s == x + core + y && AllBlank(x) && AllBlank(y);
      if core == "" {
        BlanksHaveNoCore(s);
      } else {
        assert x + core + y == x + (core + y) && (core + y)[0] == core[0];
        TrimStartSkips(x, core + y);
        TrimEndSkips(core, y);
      }
    }
  }

  // ------------------------------------------------------------- limits, one by one

  /** One of the entries is this word, whatever the case. */
  ghost predicate Among(list: Option<seq<string>>, word: string) {
    list.Some? && exists e :: e in list.value && Lower(e) == Lower(word)
  }

  predicate Restricts(list: Option<seq<string>>) {
    list.Some? && |list.value| > 0
  }

  ghost predicate MailAllowed(list: Option<seq<string>>, to: Option<string>, granted: bool) {
    Restricts(list) && !granted && to.Some? ==>
      forall domain :: AddressAt(to.value, domain) && domain != "" ==> Among(list, domain)
  }

  ghost predicate VerbAllowed(list: Option<seq<string>>, verb: Option<string>) {
    Restricts(list) ==> exists e :: e in list.value && Upper(e) == Upper(if verb.None? then "GET" else verb.value)
  }

  ghost predicate UrlUnder(url: Url, entry: string) {
    if url.Parsed? then Under(url.host, entry) else Holds(url.raw, entry)
  }

  ghost predicate UrlAllowed(list: Option<seq<string>>, url: Option<Url>) {
    Restricts(list) && url.Some? ==>
      exists e :: e in list.value && UrlUnder(url.value, e)
  }

  ghost predicate PurposeAllowed(c: ConstraintSet, intent: Option<Intent>) {
    && (Restricts(c.allowedIntentCategories) ==> intent.Some? && Among(c.allowedIntentCategories, intent.value.category))
    && (Restricts(c.allowedIntentActions) ==>
          && intent.Some? && intent.value.action.Some? && intent.value.action.value != ""
          && Among(c.allowedIntentActions, intent.value.action.value))
  }

  ghost predicate LimitsMet(c: ConstraintSet, payload: Payload, count: nat, granted: bool, hour: int) {
    && (c.allowedHours.Some? ==> c.allowedHours.value.start <= hour && hour <= c.allowedHours.value.end)
    && (c.maxActions.Some? && c.maxActions.value < 9007199254740991 ==> count + 1 <= c.maxActions.value)
    && (c.approvalRequired == Some(true) ==> granted)
    && (c.spendingLimit.Some? && payload.amount.Some? && !granted ==> payload.amount.value <= c.spendingLimit.value)
  }

  /** What the constraints let an execution do: every limit that concerns it, said of the execution's own data. */
  ghost predicate Lets(tool: Tool, c: ConstraintSet, payload: Payload, count: nat, granted: bool, hour: int, intent: Option<Intent>) {
    && LimitsMet(c, payload, count, granted, hour) && PurposeAllowed(c, intent)
    && (tool == GmailSend ==>
          MailAllowed(c.allowedDomains, payload.to, granted) && !(c.attachments == Some(false) && payload.attachments))
    && (tool == HttpRequest ==> VerbAllowed(c.allowedMethods, payload.verb) && UrlAllowed(c.allowedUrls, payload.url))
  }

  lemma DomainOkIsMailAllowed(c: ConstraintSet, ctx: Context)
    ensures DomainOk(c, ctx) <==> MailAllowed(c.allowedDomains, ctx.payload.to, ctx.approvalGranted)
  {
    var to, domain := ctx.payload.to, EmailDomain(ctx.payload.to);
    EmailDomainIsBehindTheLastAt(to, "");
    if NonEmpty(c.allowedDomains) && domain.Some? {
      var d: string :| AddressAt(to.value, d) && Lower(d) == domain.value;
      assert |Lower(d)| == |d|;
      InLowered(c.allowedDomains.value, d);
      forall other | AddressAt(to.value, other) ensures Lower(other) == domain.value {
        EmailDomainIsBehindTheLastAt(to, other);
      }
      if DomainOk(c, ctx) && !ctx.approvalGranted {
        forall other | AddressAt(to.value, other) && other != "" ensures Among(c.allowedDomains, other) {
          assert |Lower(other)| == |other|;
          InLowered(c.allowedDomains.value, other);
        }
      }
    }
    if to.Some? && domain.None? {
      forall other ensures !AddressAt(to.value, other) {
        if AddressAt(to.value, other) { EmailDomainIsBehindTheLastAt(to, other); }
      }
    }
  }

  lemma MethodOkIsVerbAllowed(c: ConstraintSet, ctx: Context)
    ensures MethodOk(c, ctx) <==> VerbAllowed(c.allowedMethods, ctx.payload.verb)
  {
    var verb := ctx.payload.verb;
    if NonEmpty(c.allowedMethods) { InUppered(c.allowedMethods.value, if verb.None? then "GET" else verb.value); }
  }

  lemma UrlOkIsUrlAllowed(c: ConstraintSet, ctx: Context)
    ensures UrlOk(c, ctx) <==> UrlAllowed(c.allowedUrls, ctx.payload.url)
  {
    if NonEmpty(c.allowedUrls) && ctx.payload.url.Some? {
      forall e | e in c.allowedUrls.value
        ensures UrlMatches(ctx.payload.url.value, e) <==> UrlUnder(ctx.payload.url.value, e)
      {
        match ctx.payload.url.value
        case Parsed(_, host) => HostWithinIsUnder(host, e);
        case Unparsed(raw) => ContainsIsHolds(raw, e);
      }
    }
  }

  lemma IntentOkIsPurposeAllowed(c: ConstraintSet, ctx: Context)
    ensures CategoryOk(c, ctx) && ActionOk(c, ctx) <==> PurposeAllowed(c, ctx.intent)
  {
    if ctx.intent.Some? {
      if NonEmpty(c.allowedIntentCategories) { InLowered(c.allowedIntentCategories.value, ctx.intent.value.category); }
      if NonEmpty(c.allowedIntentActions) && ctx.intent.value.action.Some? {
        InLowered(c.allowedIntentActions.value, ctx.intent.value.action.value);
      }
    }
  }

  lemma PermitsIsLets(tool: Tool, c: ConstraintSet, ctx: Context)
    ensures Permits(tool, c, ctx) <==>
            Lets(tool, c, ctx.payload, ctx.actionCount, ctx.approvalGranted, ctx.hour, ctx.intent)
  {
    DomainOkIsMailAllowed(c, ctx);
    MethodOkIsVerbAllowed(c, ctx);
    UrlOkIsUrlAllowed(c, ctx);
    IntentOkIsPurposeAllowed(c, ctx);
  }

  /** The compiled document allows exactly what the constraints let an execution do, in plain terms. */
  lemma AllowedInPlainTerms(tool: Tool, c: ConstraintSet, ctx: Context)
    requires !ctx.simulate
    ensures Evaluate(Compile(tool, c), ctx).decision == Allow <==>
            Lets(tool, c, ctx.payload, ctx.actionCount, ctx.approvalGranted, ctx.hour, ctx.intent)
  {
    AllowedExactlyWhenPermitted(tool, c, ctx);
    PermitsIsLets(tool, c, ctx);
  }

  /** What a human can grant is the first thing missing. */
  ghost predicate LacksHuman(tool: Tool, c: ConstraintSet, payload: Payload, count: nat, granted: bool, hour: int,
                             intent: Option<Intent>) {
    && (c.allowedHours.Some? ==> c.allowedHours.value.start <= hour && hour <= c.allowedHours.value.end)
    && (c.maxActions.Some? && c.maxActions.value < 9007199254740991 ==> count + 1 <= c.maxActions.value)
    && !granted
    && (|| c.approvalRequired == Some(true)
        || (c.spendingLimit.Some? && payload.amount.Some? && payload.amount.value > c.spendingLimit.value)
        || (&& PurposeAllowed(c, intent) && tool == GmailSend && c.approvalRequiredIfExternal == Some(true)
            && !MailAllowed(c.allowedDomains, payload.to, false)))
  }

  /** A human is asked exactly then, in a dry run too. */
  lemma AskedInPlainTerms(tool: Tool, c: ConstraintSet, ctx: Context)
    ensures Evaluate(Compile(tool, c), ctx).decision == RequireApproval <==>
            LacksHuman(tool, c, ctx.payload, ctx.actionCount, ctx.approvalGranted, ctx.hour, ctx.intent)
  {
    CompilerCorrect(tool, c, ctx);
    DomainOkIsMailAllowed(c, ctx);
    IntentOkIsPurposeAllowed(c, ctx);
  }

  // ---------------------------------------------------------------------- reasons

  /** The limit a condition was compiled from. */
  predicate ComesFrom(condition: Condition, tool: Tool, c: ConstraintSet) {
    match condition
    case AllowedHours(start, end) => c.allowedHours == Some(Hours(start, end))
    case MaxActions(limit) => c.maxActions == Some(limit)
    case ApprovalRequired(noop) => c.approvalRequired == Some(true)
    case SpendingLimit(limit) => c.spendingLimit == Some(limit)
    case ApprovalIfExternal(domains) =>
      && tool == GmailSend && c.approvalRequiredIfExternal == Some(true)
      && c.allowedDomains.Some? && domains == LowerAll(c.allowedDomains.value)
    case GmailDomains(domains) =>
      && tool == GmailSend && c.approvalRequiredIfExternal != Some(true)
      && c.allowedDomains.Some? && domains == LowerAll(c.allowedDomains.value)
    case GmailAttachments(_) => tool == GmailSend && c.attachments == Some(false)
    case HttpMethod(methods) => tool == HttpRequest && c.allowedMethods.Some? && methods == UpperAll(c.allowedMethods.value)
    case HttpUrl(urls) => tool == HttpRequest && c.allowedUrls == Some(urls)
    case IntentCategory(categories) =>
      c.allowedIntentCategories.Some? && categories == LowerAll(c.allowedIntentCategories.value)
    case IntentAction(actions) => c.allowedIntentActions.Some? && actions == LowerAll(c.allowedIntentActions.value)
  }

  lemma LimitConditionsComeFrom(tool: Tool, c: ConstraintSet)
    ensures forall condition :: condition in LimitPart(c) ==> ComesFrom(condition, tool, c)
  {
  }

  lemma IntentConditionsComeFrom(tool: Tool, c: ConstraintSet)
    ensures forall condition :: condition in IntentPart(c) ==> ComesFrom(condition, tool, c)
  {
  }

  lemma ToolConditionsComeFrom(tool: Tool, c: ConstraintSet)
    ensures forall condition :: condition in ToolPart(tool, c) ==> ComesFrom(condition, tool, c)
  {
  }

  lemma EveryConditionComesFromALimit(tool: Tool, c: ConstraintSet, condition: Condition)
    requires condition in Conditions(tool, c)
    ensures ComesFrom(condition, tool, c)
  {
    if condition in LimitPart(c) {
      LimitConditionsComeFrom(tool, c);
    } else if condition in IntentPart(c) {
      IntentConditionsComeFrom(tool, c);
    } else {
      ToolConditionsComeFrom(tool, c);
    }
  }

  /** The reason names a limit of the set, and the execution is outside it. */
  ghost predicate Explains(reason: Reason, tool: Tool, c: ConstraintSet, ctx: Context) {
    var p := ctx.payload;
    match reason
    case OutsideHours(start, end) => c.allowedHours == Some(Hours(start, end)) && !(start <= ctx.hour <= end)
    case MaxActionsExceeded => c.maxActions.Some? && c.maxActions.value <= ctx.actionCount
    case ApprovalConstraint => c.approvalRequired == Some(true) && !ctx.approvalGranted
    case SpendingExceeds(amount, limit) =>
      p.amount == Some(amount) && c.spendingLimit == Some(limit) && amount > limit && !ctx.approvalGranted
    case ExternalNeedsApproval(domain) =>
      && tool == GmailSend && c.approvalRequiredIfExternal == Some(true) && !ctx.approvalGranted
      && p.to.Some? && Foreign(c.allowedDomains, p.to.value, domain)
    case ExternalBlocked(domain) =>
      && tool == GmailSend && c.approvalRequiredIfExternal != Some(true) && !ctx.approvalGranted
      && p.to.Some? && Foreign(c.allowedDomains, p.to.value, domain)
    case AttachmentsNotPermitted => tool == GmailSend && c.attachments == Some(false) && p.attachments
    case MethodNotAllowed(verb) =>
      tool == HttpRequest && !VerbAllowed(c.allowedMethods, p.verb) && verb == Upper(if p.verb.Some? then p.verb.value else "GET")
    case UrlNotAllowed(raw) => tool == HttpRequest && !UrlAllowed(c.allowedUrls, p.url) && p.url.Some? && p.url.value.raw == raw
    case IntentMissing => Restricts(c.allowedIntentCategories) && ctx.intent.None?
    case CategoryNotAllowed(category, _) =>
      && Restricts(c.allowedIntentCategories) && ctx.intent.Some? && ctx.intent.value.category == category
      && !Among(c.allowedIntentCategories, category)
    case ActionMissing =>
      Restricts(c.allowedIntentActions) && (ctx.intent.None? || ctx.intent.value.action in {None, Some("")})
    case ActionNotAllowed(action, _) =>
      && Restricts(c.allowedIntentActions) && ctx.intent.Some? && ctx.intent.value.action == Some(action)
      && !Among(c.allowedIntentActions, action)
    case WouldAllow => false
  }

  /** The address goes to `domain`, written in lower case, which is none of the listed ones. */
  ghost predicate Foreign(list: Option<seq<string>>, address: string, domain: string) {
    exists d: string :: AddressAt(address, d) && d != "" && Lower(d) == domain && !Among(list, d)
  }

  lemma ForeignDomain(c: ConstraintSet, payload: Payload, domain: string)
    requires c.allowedDomains.Some? && ExternalDomain(payload, LowerAll(c.allowedDomains.value)) == Some(domain)
    ensures payload.to.Some? && Foreign(c.allowedDomains, payload.to.value, domain)
  {
    EmailDomainIsBehindTheLastAt(payload.to, "");
    var d: string :| AddressAt(payload.to.value, d) && Lower(d) == domain;
    assert |Lower(d)| == |d|;
    InLowered(c.allowedDomains.value, d);
  }

  lemma FailureExplains(condition: Condition, tool: Tool, c: ConstraintSet, ctx: Context)
    requires ComesFrom(condition, tool, c) && Judge(condition, ctx.(tool := tool)).Fail?
    ensures Explains(Judge(condition, ctx.(tool := tool)).reason, tool, c, ctx)
  {
    match condition
    case ApprovalIfExternal(domains) => ForeignDomain(c, ctx.payload, ExternalDomain(ctx.payload, domains).value);
    case GmailDomains(domains) => ForeignDomain(c, ctx.payload, ExternalDomain(ctx.payload, domains).value);
    case HttpMethod(_) => MethodOkIsVerbAllowed(c, ctx);
    case HttpUrl(_) => UrlOkIsUrlAllowed(c, ctx);
    case IntentCategory(_) =>
      if ctx.intent.Some? { InLowered(c.allowedIntentCategories.value, ctx.intent.value.category); }
    case IntentAction(_) =>
      if ctx.intent.Some? && ctx.intent.value.action.Some? {
        InLowered(c.allowedIntentActions.value, ctx.intent.value.action.value);
      }
    case _ =>
  }

  /** Every refusal of a compiled document names a limit the execution is outside of. */
  lemma RefusalsAreExplained(tool: Tool, c: ConstraintSet, ctx: Context)
    ensures var e := Evaluate(Compile(tool, c), ctx);
            e.decision == Deny || e.decision == RequireApproval ==> e.reason.Some? && Explains(e.reason.value, tool, c, ctx)
  {
    var cs, inner := Conditions(tool, c), ctx.(tool := tool);
    CompiledEvaluation(tool, c, ctx);
    ReportStopsAtFirstFailure(cs, inner);
    var k := Passing(cs, inner);
    if k < |cs| {
      EveryConditionComesFromALimit(tool, c, cs[k]);
      FailureExplains(cs[k], tool, c, ctx);
    }
  }
}
