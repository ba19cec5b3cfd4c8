/** The run that shows a completed request refused on repetition: its token is full by then. */
module Replays {
  import opened Prelude
  import opened Policy
  import opened Compiler
  import opened Tokens
  import opened Ledgers
  import opened Versions
  import opened Protocol
  import opened Outcomes
  import opened Executions

  /** A token without a stamp is judged by its own constraints, whatever is registered; past its limit it is denied. */
  lemma FullIsDenied(f: Facts, hash: Text -> string, call: Call, w: World)
    requires Implements(f.env.engine, hash) && !Versions.Stamped(call.claims.policyVersionId) && Full(f.ledger, call.claims)
    ensures VerdictFor(f, call, w) == Some(Deny)
  {
    CompilerCorrect(call.claims.tool, Limits(call.claims), ContextFor(f, call, w));
  }

  /** The second execution: a full token's call ends in one DENY event. */
  lemma SecondIsDenied(env: Env, hash: Text -> string, s: State, tid: nat, input: Input, w: World) returns (p: Path, t: State)
    requires tid !in s.threads && Admissible(FactsIn(env, s), input, w) && w.newApprovalId !in s.requests
    requires Implements(env.engine, hash)
    requires var claims := env.tokens[input.token]; !Versions.Stamped(claims.policyVersionId) && Full(s.ledger, claims)
    ensures var f := FactsIn(env, s); var call := CallOf(f, input, w);
            && Leads(env, s, p, t) && t.ledger == s.ledger
            && t.audit == s.audit + [Event(tid, Deny, false, Some(call), Some(ContextFor(f, call, w)))]
  {
    FullIsDenied(FactsIn(env, s), hash, CallOf(FactsIn(env, s), input, w), w);
    p, t := ReachesVerdict(env, s, tid, input, w);
  }

  /** The two events: the request completed, and the same request denied, each with the context it was judged in. */
  function TwoEvents(first: nat, second: nat, call: Call, before: Context, after: Context): seq<Event> {
    [Event(first, Allow, false, Some(call), Some(before)), Event(second, Deny, false, Some(call), Some(after))]
  }

  /**
   * From any state: an unstamped token's last action, once it completed, is denied when its request is repeated, though the
   * ledger knows the request.
   */
  lemma LastRequestIsRefusedAgain(env: Env, hash: Text -> string, s: State, first: nat, second: nat, input: Input,
                                  w: World, again: World) returns (p: Path, t: State)
    requires first != second && first !in s.threads && second !in s.threads && Implements(env.engine, hash)
    requires w.newApprovalId !in s.requests && again.newApprovalId !in s.requests && w.adapterSucceeds && Tracked(input.requestId)
    requires Admissible(FactsIn(env, s), input, w) && Admissible(FactsIn(env, s), input, again)
    requires var claims := env.tokens[input.token];
             && !Versions.Stamped(claims.policyVersionId) && LimitOf(claims).Some? && LimitOf(claims).value < MAX_SAFE_INTEGER
             && Count(s.ledger, claims.jti) + 1 == LimitOf(claims).value
    requires var r := OutcomeOf(FactsIn(env, s), input, w); r.decision == Allow && !r.replayed
    ensures Leads(env, s, p, t) && Replays(t.ledger, env.tokens[input.token].jti, input.requestId)
    ensures var call := CallOf(FactsIn(env, s), input, w);
            exists before, after :: t.audit == s.audit + TwoEvents(first, second, call, before, after)
  {
    var f := FactsIn(env, s);
    var call := CallOf(f, input, w);
    var mid, q;
    p, mid := FirstCompletes(env, s, first, input, w);
    var g := FactsIn(env, mid);
    assert Admissible(g, input, again) && CallOf(g, input, again) == call;
    q, t := SecondIsDenied(env, hash, mid, second, input, again);
    JoinLeads(env, s, p, mid, q, t);
    p := Join(p, q);
    assert t.audit == s.audit + TwoEvents(first, second, call, ContextFor(f, call, w), ContextFor(g, call, again));
  }

  /** Claims that let a token act once. */
  function OneAction(): (claims: Claims)
    ensures ValidClaims(claims) && LimitOf(claims) == Some(1) && !Versions.Stamped(claims.policyVersionId)
  {
    var limits := ConstraintSet(None, Some(1), None, None, None, None, None, None, None, None, None);
    ValidSetsSurviveTheToken(limits);
    Claims(DEFAULT_ISSUER, "agent", SlackSend, ToJwt(limits), 1, 901, "cap_" + seq(36, _ => '0'),
           None, None, None, None, None, map[], None, None, None)
  }

  function OneRequest(): Input {
    Input("token", SlackSend, Payload(None, None, false, None, None, ""), None, Some("request"), None, None, None, false)
  }

  function NoonWorld(): World {
    World(2, 12, true, "approval")
  }

  /** At the start such a token is let act. */
  lemma OneActionIsAllowed(env: Env, hash: Text -> string)
    requires env.tokens == map["token" := OneAction()] && env.issuer.None? && Implements(env.engine, hash)
    ensures var f := FactsIn(env, Initial());
            && Admissible(f, OneRequest(), NoonWorld())
            && OutcomeOf(f, OneRequest(), NoonWorld()).decision == Allow && !OutcomeOf(f, OneRequest(), NoonWorld()).replayed
  {
    ActsExactlyWhen(FactsIn(env, Initial()), hash, OneRequest(), NoonWorld());
  }

  /** The same path from the start, for that token and that request. */
  lemma OneActionRunsTwice(env: Env, hash: Text -> string) returns (steps: seq<Step>)
    requires env.tokens == map["token" := OneAction()] && env.issuer.None? && Implements(env.engine, hash)
    ensures IsRun(env, Initial(), steps)
    ensures var t := After(env, Initial(), steps);
            && Replays(t.ledger, OneAction().jti, OneRequest().requestId)
            && exists call, before, after :: t.audit == TwoEvents(0, 1, call, before, after) && call.input == OneRequest()
  {
    OneActionIsAllowed(env, hash);
    var p, t := LastRequestIsRefusedAgain(env, hash, Initial(), 0, 1, OneRequest(), NoonWorld(), NoonWorld());
    PathIsRun(env, Initial(), p, t);
    steps := p.steps;
    var before, after :| t.audit == TwoEvents(0, 1, CallOf(FactsIn(env, Initial()), OneRequest(), NoonWorld()), before, after);
  }

  /** The failing case from the start: a request completes, and the same request, repeated, is refused. */
  lemma CompletedRequestIsRefused() returns (env: Env, hash: Text -> string, input: Input, steps: seq<Step>)
    ensures Implements(env.engine, hash) && UniqueIds(env) && IsRun(env, Initial(), steps)
    ensures var t := After(env, Initial(), steps);
            && input.token in env.tokens && Tracked(input.requestId)
            && Replays(t.ledger, env.tokens[input.token].jti, input.requestId)
            && exists call, before, after :: t.audit == TwoEvents(0, 1, call, before, after) && call.input == input
  {
    hash := (_: Text) => "version";
    var engine := EnginesExist(hash);
    env, input := Env(map["token" := OneAction()], None, engine), OneRequest();
    steps := OneActionRunsTwice(env, hash);
  }
}
