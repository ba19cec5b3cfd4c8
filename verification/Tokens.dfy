/** Capability tokens: claims, the claim encoding of constraints, granting, validating and delegating. */
module Tokens {
  import opened Prelude
  import opened Policy
  import opened Compiler
  import opened Delegation

  /** Constraints as the token carries them. */
  datatype JwtConstraintSet = JwtConstraintSet(
    allowed_domains: Option<seq<string>>,
    max_actions: Option<int>,
    allowed_methods: Option<seq<string>>,
    allowed_urls: Option<seq<string>>,
    attachments: Option<bool>,
    spending_limit: Option<real>,
    allowed_hours: Option<Hours>,
    approval_required: Option<bool>,
    approval_required_if_external: Option<bool>,
    allowed_intent_categories: Option<seq<string>>,
    allowed_intent_actions: Option<seq<string>>)

  /** The intent and the version id are properties of the metadata; its other properties are kept as their texts. */
  datatype Claims = Claims(
    iss: string,
    sub: string,
    tool: Tool,
    constraints: JwtConstraintSet,
    iat: int,
    exp: int,
    jti: string,
    delegator: Option<string>,
    session: Option<string>,
    task: Option<string>,
    intent: Option<Intent>,
    policyVersionId: Option<string>,
    otherMetadata: map<string, string>,
    parentJti: Option<string>,
    delegationDepth: Option<int>,
    delegatorChain: Option<seq<string>>)

  const DEFAULT_ISSUER := "acr-runtime"
  const DEFAULT_EXPIRES_SEC := 900
  const MAX_EXPIRES_SEC := 86400
  const CLOCK_TOLERANCE_SEC := 5
  const DEFAULT_MAX_DEPTH := 8

  // ------------------------------------------------------- constraints in claims

  function ToJwt(c: ConstraintSet): JwtConstraintSet {
    JwtConstraintSet(
      c.allowedDomains, c.maxActions,
      if c.allowedMethods.Some? then Some(UpperAll(c.allowedMethods.value)) else None,
      c.allowedUrls, c.attachments, c.spendingLimit, c.allowedHours,
      c.approvalRequired, c.approvalRequiredIfExternal, c.allowedIntentCategories, c.allowedIntentActions)
  }

  function FromJwt(j: JwtConstraintSet): ConstraintSet {
    ConstraintSet(
      j.allowed_domains, j.max_actions, j.allowed_methods, j.allowed_urls, j.attachments, j.spending_limit,
      j.allowed_hours, j.approval_required, j.approval_required_if_external,
      j.allowed_intent_categories, j.allowed_intent_actions)
  }

  method ConstraintsToJwt(constraints: ConstraintSet) returns (jwt: JwtConstraintSet)
    ensures jwt == ToJwt(constraints)
  {
    jwt := JwtConstraintSet(None, None, None, None, None, None, None, None, None, None, None);
    if constraints.allowedDomains.Some? { jwt := jwt.(allowed_domains := constraints.allowedDomains); }
    if constraints.maxActions.Some? { jwt := jwt.(max_actions := constraints.maxActions); }
    if constraints.allowedMethods.Some? { jwt := jwt.(allowed_methods := Some(UpperAll(constraints.allowedMethods.value))); }
    if constraints.allowedUrls.Some? { jwt := jwt.(allowed_urls := constraints.allowedUrls); }
    if constraints.attachments.Some? { jwt := jwt.(attachments := constraints.attachments); }
    jwt := RestToJwt(constraints, jwt);
  }

  /** The second half of the assignments. */
  method RestToJwt(c: ConstraintSet, first: JwtConstraintSet) returns (jwt: JwtConstraintSet)
    requires first.spending_limit.None? && first.allowed_hours.None? && first.approval_required.None?
    requires first.approval_required_if_external.None?
    requires first.allowed_intent_categories.None? && first.allowed_intent_actions.None?
    ensures jwt == first.(
      spending_limit := c.spendingLimit, allowed_hours := c.allowedHours, approval_required := c.approvalRequired,
      approval_required_if_external := c.approvalRequiredIfExternal,
      allowed_intent_categories := c.allowedIntentCategories, allowed_intent_actions := c.allowedIntentActions)
  {
    jwt := first;
    if c.spendingLimit.Some? { jwt := jwt.(spending_limit := c.spendingLimit); }
    if c.allowedHours.Some? { jwt := jwt.(allowed_hours := c.allowedHours); }
    if c.approvalRequired.Some? { jwt := jwt.(approval_required := c.approvalRequired); }
    if c.approvalRequiredIfExternal.Some? { jwt := jwt.(approval_required_if_external := c.approvalRequiredIfExternal); }
    if c.allowedIntentCategories.Some? { jwt := jwt.(allowed_intent_categories := c.allowedIntentCategories); }
    if c.allowedIntentActions.Some? { jwt := jwt.(allowed_intent_actions := c.allowedIntentActions); }
  }

  method ConstraintsFromJwt(jwt: JwtConstraintSet) returns (constraints: ConstraintSet)
    ensures constraints == FromJwt(jwt)
  {
    constraints := ConstraintSet(None, None, None, None, None, None, None, None, None, None, None);
    if jwt.allowed_domains.Some? { constraints := constraints.(allowedDomains := jwt.allowed_domains); }
    if jwt.max_actions.Some? { constraints := constraints.(maxActions := jwt.max_actions); }
    if jwt.allowed_methods.Some? { constraints := constraints.(allowedMethods := jwt.allowed_methods); }
    if jwt.allowed_urls.Some? { constraints := constraints.(allowedUrls := jwt.allowed_urls); }
    if jwt.attachments.Some? { constraints := constraints.(attachments := jwt.attachments); }
    constraints := RestFromJwt(jwt, constraints);
  }

  method RestFromJwt(jwt: JwtConstraintSet, first: ConstraintSet) returns (c: ConstraintSet)
    requires first.spendingLimit.None? && first.allowedHours.None? && first.approvalRequired.None?
    requires first.approvalRequiredIfExternal.None?
    requires first.allowedIntentCategories.None? && first.allowedIntentActions.None?
    ensures c == first.(
      spendingLimit := jwt.spending_limit, allowedHours := jwt.allowed_hours, approvalRequired := jwt.approval_required,
      approvalRequiredIfExternal := jwt.approval_required_if_external,
      allowedIntentCategories := jwt.allowed_intent_categories, allowedIntentActions := jwt.allowed_intent_actions)
  {
    c := first;
    if jwt.spending_limit.Some? { c := c.(spendingLimit := jwt.spending_limit); }
    if jwt.allowed_hours.Some? { c := c.(allowedHours := jwt.allowed_hours); }
    if jwt.approval_required.Some? { c := c.(approvalRequired := jwt.approval_required); }
    if jwt.approval_required_if_external.Some? { c := c.(approvalRequiredIfExternal := jwt.approval_required_if_external); }
    if jwt.allowed_intent_categories.Some? { c := c.(allowedIntentCategories := jwt.allowed_intent_categories); }
    if jwt.allowed_intent_actions.Some? { c := c.(allowedIntentActions := jwt.allowed_intent_actions); }
  }

  /** The trip through the token gives back the constraints exactly when every method is written in upper case. */
  lemma RoundTrip(c: ConstraintSet)
    ensures FromJwt(ToJwt(c)) == c <==>
            (c.allowedMethods.Some? ==> forall m :: m in c.allowedMethods.value ==> Upper(m) == m)
  {
    if c.allowedMethods.Some? {
      var methods := c.allowedMethods.value;
      if forall m :: m in methods ==> Upper(m) == m {
        assert forall i :: 0 <= i < |methods| ==> methods[i] in methods && UpperAll(methods)[i] == methods[i];
        assert UpperAll(methods) == methods;
      } else {
        var m :| m in methods && Upper(m) != m;
        var i :| 0 <= i < |methods| && methods[i] == m;
        assert UpperAll(methods)[i] != methods[i];
      }
    }
  }

  lemma UpperWordIsUpper(m: string)
    requires UpperWord(m)
    ensures Upper(m) == m
  {
    assert forall i :: 0 <= i < |m| ==> m[i] in m;
  }

  lemma ValidSetsSurviveTheToken(c: ConstraintSet)
    requires ValidSet(c)
    ensures FromJwt(ToJwt(c)) == c
  {
    RoundTrip(c);
    if c.allowedMethods.Some? {
      forall m | m in c.allowedMethods.value ensures Upper(m) == m {
        UpperWordIsUpper(m);
      }
    }
  }

  // --------------------------------------------------------------- validation

  datatype ValidationError = InvalidFormat | InvalidSignature | Expired | InvalidClaims | IssuerMismatch | ToolMismatch

  predicate Named(o: Option<string>) {
    o.Some? ==> o.value != ""
  }

  predicate ValidLineage(depth: Option<int>, chain: Option<seq<string>>) {
    (depth.Some? ==> 0 <= depth.value <= 16) && NoBlank(chain)
  }

  /** The form of a token id: `cap_` and the 36 characters of a lower-case UUID. */
  predicate CapabilityId(s: string) {
    |s| == 40 && s[..4] == "cap_" && forall i :: 4 <= i < 40 ==> '0' <= s[i] <= '9' || 'a' <= s[i] <= 'f' || s[i] == '-'
  }

  predicate ValidParent(jti: Option<string>) {
    jti.Some? ==> CapabilityId(jti.value)
  }

  predicate ValidClaims(c: Claims) {
    && CapabilityId(c.jti) && ValidParent(c.parentJti)
    && c.iss != "" && c.sub != "" && Named(c.delegator) && Named(c.session) && Named(c.task)
    && ValidSet(FromJwt(c.constraints))
    && 0 < c.iat < c.exp
    && ValidLineage(c.delegationDepth, c.delegatorChain)
  }

  /** Whether the token has not run out at second `now`, with the leeway RFC 7519 section 4.1.4 allows. */
  predicate Unexpired(c: Claims, now: int, tolerance: int) {
    c.exp > now - tolerance
  }

  /** Validation of a token whose decoding and signature check gave `decoded`. */
  function Validate(decoded: Result<Claims, ValidationError>, now: int, issuer: Option<string>, expectedTool: Option<Tool>):
    (r: Result<Claims, ValidationError>)
    ensures r.Success? <==>
            && decoded.Success? && Unexpired(decoded.value, now, CLOCK_TOLERANCE_SEC) && ValidClaims(decoded.value)
            && (issuer.Some? ==> decoded.value.iss == issuer.value)
            && (expectedTool.Some? ==> decoded.value.tool == expectedTool.value)
    ensures r.Success? ==> r == decoded
  {
    match decoded
    case Failure(e) => Failure(e)
    case Success(c) =>
      if !Unexpired(c, now, CLOCK_TOLERANCE_SEC) then Failure(Expired)
      else if !ValidClaims(c) then Failure(InvalidClaims)
      else if issuer.Some? && c.iss != issuer.value then Failure(IssuerMismatch)
      else if expectedTool.Some? && c.tool != expectedTool.value then Failure(ToolMismatch)
      else Success(c)
  }

  /** A refused token is refused for the first thing wrong with it. */
  lemma ValidationNamesTheFirstFault(c: Claims, now: int, issuer: Option<string>, expectedTool: Option<Tool>)
    ensures var r := Validate(Success(c), now, issuer, expectedTool);
            var dead, broken := c.exp + CLOCK_TOLERANCE_SEC <= now, !ValidClaims(c);
            var foreign, misused := issuer !in {None, Some(c.iss)}, expectedTool !in {None, Some(c.tool)};
            && (r == Failure(Expired) <==> dead) && (r == Failure(InvalidClaims) <==> !dead && broken)
            && (r == Failure(IssuerMismatch) <==> !dead && !broken && foreign)
            && (r == Failure(ToolMismatch) <==> !dead && !broken && !foreign && misused)
  {
  }

  lemma UuidChar(ch: char)
    ensures ch in "0123456789abcdef-" <==> '0' <= ch <= '9' || 'a' <= ch <= 'f' || ch == '-'
  {
    if '0' <= ch <= '9' { assert "0123456789abcdef-"[ch as int - 48] == ch; }
    if 'a' <= ch <= 'f' { assert "0123456789abcdef-"[ch as int - 87] == ch; }
    if ch == '-' { assert "0123456789abcdef-"[16] == ch; }
  }

  /** A token id is the prefix and 36 characters out of those a lower-case UUID is written with. */
  lemma CapabilityIdInPlainTerms(s: string)
    ensures CapabilityId(s) <==>
            exists uuid: string :: s == "cap_" + uuid && |uuid| == 36 && forall ch :: ch in uuid ==> ch in "0123456789abcdef-"
  {
    if CapabilityId(s) {
      assert s == s[..4] + s[4..] == "cap_" + s[4..];
      forall ch | ch in s[4..] ensures ch in "0123456789abcdef-" { UuidChar(ch); }
    }
    if uuid: string :| s == "cap_" + uuid && |uuid| == 36 && forall ch :: ch in uuid ==> ch in "0123456789abcdef-" {
      forall i | 4 <= i < 40 ensures '0' <= s[i] <= '9' || 'a' <= s[i] <= 'f' || s[i] == '-' {
        assert s[i] == uuid[i - 4] && uuid[i - 4] in uuid;
        UuidChar(s[i]);
      }
    }
  }

  // ------------------------------------------------------------------- granting

  /**
   * What a grant asks for. `metadataIntent`, `policyVersionId` and `otherMetadata` are the properties of its metadata; an
   * intent given there is kept as it is, if it is one at all.
   */
  datatype GrantInput = GrantInput(
    agentId: string,
    tool: Tool,
    constraints: ConstraintSet,
    expiresIn: Option<int>,
    issuer: Option<string>,
    delegator: Option<string>,
    session: Option<string>,
    task: Option<string>,
    intent: Option<Intent>,
    metadataIntent: Option<Option<Intent>>,
    policyVersionId: Option<string>,
    otherMetadata: map<string, string>,
    parentJti: Option<string>,
    delegationDepth: Option<int>,
    delegatorChain: Option<seq<string>>)

  datatype GrantError =
    | SchemaError
    | NonPositiveExpiry
    | ExpiryTooLong
    | InvalidParent(error: ValidationError)
    | DepthExceeded(depth: int, maximum: int)
    | Escalation(violations: seq<Field>)

  predicate ValidInput(i: GrantInput) {
    && i.agentId != "" && Named(i.issuer) && Named(i.delegator) && Named(i.session) && Named(i.task)
    && ValidSet(i.constraints)
    && ValidParent(i.parentJti) && ValidLineage(i.delegationDepth, i.delegatorChain)
    && (i.intent.Some? ==> i.intent.value.category != "" && Named(i.intent.value.action))
  }

  /** An intent as it is read: trimmed, an empty action left out, and none at all without a category. */
  function Normalized(intent: Option<Intent>): Option<Intent> {
    if intent.None? || Trim(intent.value.category) == "" then None
    else
      var action := if intent.value.action.Some? then Trim(intent.value.action.value) else "";
      Some(Intent(Trim(intent.value.category), if action == "" then None else Some(action)))
  }

  function OrElse<T>(o: Option<T>, default: T): T {
    if o.Some? then o.value else default
  }

  /** The claims a grant signs. */
  function Granted(input: GrantInput, signerIssuer: Option<string>, now: int, jti: string): Claims {
    Claims(
      OrElse(input.issuer, OrElse(signerIssuer, DEFAULT_ISSUER)), input.agentId, input.tool, ToJwt(input.constraints),
      now, now + OrElse(input.expiresIn, DEFAULT_EXPIRES_SEC), jti,
      input.delegator, input.session, input.task, OrElse(input.metadataIntent, Normalized(input.intent)), input.policyVersionId,
      input.otherMetadata, input.parentJti, input.delegationDepth, input.delegatorChain)
  }

  /** The claims of the metadata: the intent given, then what the metadata itself says, which overrides it. */
  method WithMetadata(bare: Claims, input: GrantInput) returns (claims: Claims)
    requires bare.intent.None? && bare.policyVersionId.None? && bare.otherMetadata == map[]
    ensures claims == bare.(intent := OrElse(input.metadataIntent, Normalized(input.intent)), policyVersionId := input.policyVersionId,
                            otherMetadata := input.otherMetadata)
  {
    claims := bare;
    if Normalized(input.intent).Some? { claims := claims.(intent := Normalized(input.intent)); }
    if input.metadataIntent.Some? { claims := claims.(intent := input.metadataIntent.value); }
    if input.policyVersionId.Some? { claims := claims.(policyVersionId := input.policyVersionId); }
    claims := claims.(otherMetadata := claims.otherMetadata + input.otherMetadata);
  }

  /** Where the token comes from, when it is delegated. */
  method WithLineage(bare: Claims, input: GrantInput) returns (claims: Claims)
    requires bare.parentJti.None? && bare.delegationDepth.None? && bare.delegatorChain.None?
    ensures claims == bare.(parentJti := input.parentJti, delegationDepth := input.delegationDepth,
                            delegatorChain := input.delegatorChain)
  {
    claims := bare;
    if input.parentJti.Some? { claims := claims.(parentJti := input.parentJti); }
    if input.delegationDepth.Some? { claims := claims.(delegationDepth := input.delegationDepth); }
    if input.delegatorChain.Some? { claims := claims.(delegatorChain := input.delegatorChain); }
  }

  /** Who granted it, and for what. */
  method WithPurpose(bare: Claims, input: GrantInput) returns (claims: Claims)
    requires bare.delegator.None? && bare.session.None? && bare.task.None?
    ensures claims == bare.(delegator := input.delegator, session := input.session, task := input.task)
  {
    claims := bare;
    if input.delegator.Some? { claims := claims.(delegator := input.delegator); }
    if input.session.Some? { claims := claims.(session := input.session); }
    if input.task.Some? { claims := claims.(task := input.task); }
  }

  method GrantCapability(input: GrantInput, signerIssuer: Option<string>, now: int, jti: string)
    returns (r: Result<Claims, GrantError>)
    ensures r.Success? <==>
            ValidInput(input) && 0 < OrElse(input.expiresIn, DEFAULT_EXPIRES_SEC) <= MAX_EXPIRES_SEC
    ensures r.Success? ==> r.value == Granted(input, signerIssuer, now, jti)
    ensures r.Failure? ==>
              r.error == if !ValidInput(input) then SchemaError
              else if OrElse(input.expiresIn, DEFAULT_EXPIRES_SEC) <= 0 then NonPositiveExpiry else ExpiryTooLong
  {
    if !ValidInput(input) { return Failure(SchemaError); }
    var issuer := OrElse(input.issuer, OrElse(signerIssuer, DEFAULT_ISSUER));
    var expiresInSec := OrElse(input.expiresIn, DEFAULT_EXPIRES_SEC);
    if expiresInSec <= 0 { return Failure(NonPositiveExpiry); }
    if expiresInSec > MAX_EXPIRES_SEC { return Failure(ExpiryTooLong); }
    var constraints := ConstraintsToJwt(input.constraints);
    var claims := Claims(issuer, input.agentId, input.tool, constraints, now, now + expiresInSec, jti,
                         None, None, None, None, None, map[], None, None, None);
    claims := WithPurpose(claims, input);
    claims := WithMetadata(claims, input);
    claims := WithLineage(claims, input);
    r := Success(claims);
  }

  /** Who issued a token: the issuer the grant names, or else the signer's, or else the default. */
  predicate IssuedBy(input: GrantInput, signerIssuer: Option<string>, issuer: string) {
    && (input.issuer.Some? ==> issuer == input.issuer.value)
    && (input.issuer.None? && signerIssuer.Some? ==> issuer == signerIssuer.value)
    && (input.issuer.None? && signerIssuer.None? ==> issuer == "acr-runtime")
  }

  /** What a grant asked for is what the token says, constraints included, for as long as was asked or 15 minutes. */
  lemma GrantedInPlainTerms(input: GrantInput, signerIssuer: Option<string>, now: int, jti: string)
    requires ValidSet(input.constraints)
    ensures var c := Granted(input, signerIssuer, now, jti);
            && IssuedBy(input, signerIssuer, c.iss) && c.sub == input.agentId && c.tool == input.tool && c.jti == jti
            && FromJwt(c.constraints) == input.constraints
            && c.iat == now && c.exp - c.iat == (if input.expiresIn.Some? then input.expiresIn.value else 15 * 60)
            && c.delegator == input.delegator && c.session == input.session && c.task == input.task
            && (input.metadataIntent.None? ==> c.intent == Normalized(input.intent))
            && (input.metadataIntent.Some? ==> c.intent == input.metadataIntent.value)
            && c.policyVersionId == input.policyVersionId && c.otherMetadata == input.otherMetadata
            && c.parentJti == input.parentJti && c.delegationDepth == input.delegationDepth && c.delegatorChain == input.delegatorChain
  {
    ValidSetsSurviveTheToken(input.constraints);
  }

  /** A granted token validates, for its issuer and tool, to the end of its life, leeway included, and no longer. */
  lemma GrantedTokensValidate(input: GrantInput, signerIssuer: Option<string>, now: int, jti: string, issuer: string, t: int)
    requires ValidInput(input) && 0 < OrElse(input.expiresIn, DEFAULT_EXPIRES_SEC)
    requires now > 0 && CapabilityId(jti) && Named(signerIssuer) && IssuedBy(input, signerIssuer, issuer)
    ensures var claims := Granted(input, signerIssuer, now, jti);
            && (Validate(Success(claims), t, Some(issuer), Some(input.tool)).Success? <==> t < claims.exp + CLOCK_TOLERANCE_SEC)
            && (forall other :: other != issuer ==> Validate(Success(claims), t, Some(other), Some(input.tool)).Failure?)
            && (forall tool :: tool != input.tool ==> Validate(Success(claims), t, Some(issuer), Some(tool)).Failure?)
  {
    GrantedInPlainTerms(input, signerIssuer, now, jti);
  }

  // ------------------------------------------------------------------ delegation

  /** What the signer and the clock supply to one delegation. */
  datatype Signer = Signer(issuer: Option<string>, maxDepth: Option<int>, now: int, jti: string)

  function Limits(c: Claims): ConstraintSet {
    FromJwt(c.constraints)
  }

  function Depth(c: Claims): int {
    OrElse(c.delegationDepth, 0)
  }

  function Chain(c: Claims): seq<string> {
    OrElse(c.delegatorChain, [])
  }

  function Listed(o: Option<string>): seq<string> {
    if o.Some? then [o.value] else []
  }

  function ChildInput(parent: Claims, input: GrantInput): GrantInput {
    input.(parentJti := Some(parent.jti),
           delegationDepth := Some(Depth(parent) + 1),
           delegatorChain := Some(Chain(parent) + Listed(parent.delegator) + Listed(input.delegator)))
  }

  /** A token `child` that delegating `parent` by this input yields. */
  predicate DelegatedBy(parent: Claims, input: GrantInput, s: Signer, child: Claims) {
    && Validate(Success(parent), s.now, s.issuer, Some(input.tool)).Success?
    && Depth(parent) + 1 <= OrElse(s.maxDepth, DEFAULT_MAX_DEPTH)
    && PassesCheck(FromJwt(parent.constraints), input.constraints)
    && ValidInput(ChildInput(parent, input))
    && 0 < OrElse(input.expiresIn, DEFAULT_EXPIRES_SEC) <= MAX_EXPIRES_SEC
    && child == Granted(ChildInput(parent, input), s.issuer, s.now, s.jti)
  }

  /** Which of its checks a refused delegation failed first. */
  function DelegationError(parent: Claims, input: GrantInput, s: Signer): GrantError {
    var validation := Validate(Success(parent), s.now, s.issuer, Some(input.tool));
    var violations := Violations(FromJwt(parent.constraints), input.constraints);
    if validation.Failure? then InvalidParent(validation.error)
    else if Depth(parent) + 1 > OrElse(s.maxDepth, DEFAULT_MAX_DEPTH)
    then DepthExceeded(Depth(parent) + 1, OrElse(s.maxDepth, DEFAULT_MAX_DEPTH))
    else if violations != [] then Escalation(violations)
    else if !ValidInput(ChildInput(parent, input)) then SchemaError
    else if OrElse(input.expiresIn, DEFAULT_EXPIRES_SEC) <= 0 then NonPositiveExpiry
    else ExpiryTooLong
  }

  method DelegateCapability(decoded: Result<Claims, ValidationError>, input: GrantInput, s: Signer)
    returns (r: Result<Claims, GrantError>)
    ensures r.Success? <==> decoded.Success? && exists child :: DelegatedBy(decoded.value, input, s, child)
    ensures r.Success? ==> DelegatedBy(decoded.value, input, s, r.value)
    ensures r.Failure? && decoded.Success? ==>
              r.error == DelegationError(decoded.value, input, s)
  {
    var parentResult := Validate(decoded, s.now, s.issuer, Some(input.tool));
    if parentResult.Failure? { return Failure(InvalidParent(parentResult.error)); }
    var parent := parentResult.value;
    var maxDepth := OrElse(s.maxDepth, DEFAULT_MAX_DEPTH);
    var nextDepth := Depth(parent) + 1;
    if nextDepth > maxDepth { return Failure(DepthExceeded(nextDepth, maxDepth)); }
    var chain := Chain(parent);
    if parent.delegator.Some? { chain := chain + [parent.delegator.value]; }
    if input.delegator.Some? { chain := chain + [input.delegator.value]; }
    assert chain == Chain(parent) + Listed(parent.delegator) + Listed(input.delegator);
    var parentConstraints := ConstraintsFromJwt(parent.constraints);
    var violations := AssertConstraintSubset(parentConstraints, input.constraints);
    if |violations| > 0 { return Failure(Escalation(violations)); }
    r := GrantCapability(input.(parentJti := Some(parent.jti), delegationDepth := Some(nextDepth), delegatorChain := Some(chain)),
                         s.issuer, s.now, s.jti);
    if r.Success? {
      assert DelegatedBy(parent, input, s, r.value);
    }
  }

  /** A refused delegation is refused for the first thing wrong with it. */
  lemma DelegationNamesTheFirstFault(parent: Claims, input: GrantInput, s: Signer)
    ensures var e := DelegationError(parent, input, s);
            var invalid := Validate(Success(parent), s.now, s.issuer, Some(input.tool)).Failure?;
            var tooDeep := (if parent.delegationDepth.Some? then parent.delegationDepth.value else 0) + 1
                           > (if s.maxDepth.Some? then s.maxDepth.value else 8);
            var wider := !PassesCheck(Limits(parent), input.constraints);
            && (e.InvalidParent? <==> invalid) && (e.DepthExceeded? <==> !invalid && tooDeep)
            && (e.Escalation? <==> !invalid && !tooDeep && wider)
            && (e == SchemaError <==> !invalid && !tooDeep && !wider && !ValidInput(ChildInput(parent, input)))
  {
  }

  // -------------------------------------------------------- lines of delegation

  /** A root token and the tokens delegated from it, one below the other. */
  predicate DelegationLine(tokens: seq<Claims>, inputs: seq<GrantInput>, signers: seq<Signer>) {
    && |tokens| == |inputs| + 1 && |signers| == |inputs|
    && forall i :: 0 <= i < |inputs| ==> DelegatedBy(tokens[i], inputs[i], signers[i], tokens[i + 1])
  }

  /** Depth counts the hops and stays within the signer's maximum; a parent's delegator chain starts its descendants'. */
  lemma {:induction false} LineIsTraceable(tokens: seq<Claims>, inputs: seq<GrantInput>, signers: seq<Signer>, i: nat, j: nat)
    requires DelegationLine(tokens, inputs, signers) && i <= j < |tokens|
    ensures Depth(tokens[j]) == Depth(tokens[i]) + (j - i)
    ensures Chain(tokens[i]) <= Chain(tokens[j])
    ensures tokens[i].tool == tokens[j].tool
    ensures i < j ==> tokens[j].sub == inputs[j - 1].agentId
    ensures i < j ==> && Depth(tokens[j]) <= OrElse(signers[j - 1].maxDepth, DEFAULT_MAX_DEPTH)
                      && tokens[j].parentJti == Some(tokens[j - 1].jti)
                      && Chain(tokens[j]) ==
                         Chain(tokens[j - 1]) + Listed(tokens[j - 1].delegator) + Listed(tokens[j].delegator)
    decreases j
  {
    if i < j {
      assert DelegatedBy(tokens[j - 1], inputs[j - 1], signers[j - 1], tokens[j]);
      LineIsTraceable(tokens, inputs, signers, i, j - 1);
    }
  }

  lemma HopIsChecked(parent: Claims, input: GrantInput, s: Signer, child: Claims)
    requires DelegatedBy(parent, input, s, child)
    ensures ValidSet(Limits(parent)) && ValidSet(Limits(child)) && PassesCheck(Limits(parent), Limits(child))
  {
    ValidSetsSurviveTheToken(input.constraints);
  }

  lemma HopIncludes(parent: Claims, input: GrantInput, s: Signer, child: Claims)
    requires DelegatedBy(parent, input, s, child) && NothingOmitted(child.tool, Limits(parent), Limits(child))
    ensures parent.tool == child.tool && Includes(child.tool, Limits(parent), Limits(child))
  {
    HopIsChecked(parent, input, s, child);
    CheckedDelegationIsExact(child.tool, Limits(parent), Limits(child));
  }

  /** One limit set after another, each including the next. */
  ghost predicate Chained(tool: Tool, sets: seq<ConstraintSet>) {
    forall k :: 0 < k < |sets| ==> Includes(tool, sets[k - 1], sets[k])
  }

  lemma IncludesOnward(tool: Tool, a: ConstraintSet, b: ConstraintSet, c: ConstraintSet)
    requires Includes(tool, a, b) && Includes(tool, b, c)
    ensures Includes(tool, a, c)
  {
  }

  lemma {:induction false} ChainIncludes(tool: Tool, sets: seq<ConstraintSet>, i: nat, j: nat)
    requires Chained(tool, sets) && i <= j < |sets|
    ensures Includes(tool, sets[i], sets[j])
    decreases j
  {
    if i < j {
      ChainIncludes(tool, sets, i, j - 1);
      IncludesOnward(tool, sets[i], sets[j - 1], sets[j]);
    }
  }

  function LimitsAlong(tokens: seq<Claims>): (sets: seq<ConstraintSet>)
    ensures |sets| == |tokens| && forall k :: 0 <= k < |tokens| ==> sets[k] == Limits(tokens[k])
  {
    seq(|tokens|, k requires 0 <= k < |tokens| => Limits(tokens[k]))
  }

  predicate OmitsNothing(tokens: seq<Claims>) {
    forall k :: 0 < k < |tokens| ==> NothingOmitted(tokens[k].tool, Limits(tokens[k - 1]), Limits(tokens[k]))
  }

  lemma LineIsChained(tokens: seq<Claims>, inputs: seq<GrantInput>, signers: seq<Signer>)
    requires DelegationLine(tokens, inputs, signers) && OmitsNothing(tokens)
    ensures Chained(tokens[0].tool, LimitsAlong(tokens))
  {
    forall k | 0 < k < |tokens| ensures Includes(tokens[0].tool, Limits(tokens[k - 1]), Limits(tokens[k])) {
      assert DelegatedBy(tokens[k - 1], inputs[k - 1], signers[k - 1], tokens[k]);
      HopIncludes(tokens[k - 1], inputs[k - 1], signers[k - 1], tokens[k]);
      LineIsTraceable(tokens, inputs, signers, 0, k);
    }
  }

  lemma LineIncludes(tokens: seq<Claims>, inputs: seq<GrantInput>, signers: seq<Signer>, i: nat, j: nat)
    requires DelegationLine(tokens, inputs, signers) && OmitsNothing(tokens) && i <= j < |tokens|
    ensures tokens[i].tool == tokens[j].tool && Includes(tokens[j].tool, Limits(tokens[i]), Limits(tokens[j]))
  {
    LineIsChained(tokens, inputs, signers);
    ChainIncludes(tokens[0].tool, LimitsAlong(tokens), i, j);
    LineIsTraceable(tokens, inputs, signers, 0, j);
    LineIsTraceable(tokens, inputs, signers, i, j);
  }

  /** Down any line of delegated tokens that leave nothing out, a descendant is allowed nothing its ancestor is not. */
  lemma DelegatedTokensNeverEscalate(
    tokens: seq<Claims>, inputs: seq<GrantInput>, signers: seq<Signer>, i: nat, j: nat, ctx: Context)
    requires DelegationLine(tokens, inputs, signers) && OmitsNothing(tokens) && i <= j < |tokens|
    requires ValidContext(ctx)
    requires Evaluate(Compile(tokens[j].tool, Limits(tokens[j])), ctx).decision == Allow
    ensures Evaluate(Compile(tokens[i].tool, Limits(tokens[i])), ctx).decision == Allow
  {
    AllowedExactlyWhenPermitted(tokens[j].tool, Limits(tokens[j]), ctx);
    AllowedExactlyWhenPermitted(tokens[i].tool, Limits(tokens[i]), ctx);
    LineIncludes(tokens, inputs, signers, i, j);
  }
}
