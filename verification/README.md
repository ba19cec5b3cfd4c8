# A Dafny model of the capability runtime

This project models the core of an agent capability runtime and proves what it is meant to guarantee. A capability token
carries constraints; every execution on it is validated, checked against revocations and approvals, judged by a compiled
policy, counted against a quota, performed by an adapter and written to an audit log.

| file | what it models |
|---|---|
| `Policy.dfy`, `Compiler.dfy`, `PlainTerms.dfy` | constraint sets, the policy tree they compile to, its evaluator with traces; what a compiled policy decides, in plain terms |
| `Delegation.dfy`, `Refusals.dfy`, `Tokens.dfy` | the subset check of delegation, what passing it secures and what a refusal means; claims, granting, validation, lines of delegated tokens |
| `Versions.dfy` | policy version ids and the registry a token's stamped version is resolved in |
| `Ledger.dfy`, `LedgerWaits.dfy` | the consumption ledger in memory and in Redis (two scripts over expiring keys), the refinement between them, and the in-memory ledger under overlapping calls |
| `Approvals.dfy`, `Sessions.dfy` | approval requests in memory and on file, execution sessions |
| `Protocol.dfy` | execution as a transition system: any number of executions interleave over shared stores |
| `ProtocolQuota.dfy`, `ProtocolSafety.dfy`, `ProtocolVerdicts.dfy`, `ProtocolContext.dfy`, `ProtocolPolicy.dfy`, `ProtocolSessions.dfy` | what every step keeps, and the properties of whole runs: counts and request ids, approvals and revocation, whose verdict stands, the context of a verdict, what an ALLOW rests on, what sessions tell |
| `ProtocolClock.dfy` | the protocol over Redis stores whose keys expire, and why nothing is lost when their times to live are long enough |
| `Outcomes.dfy`, `PlainOutcomes.dfy`, `Runtime.dfy` | the runtime object, one call at a time: the outcome its state calls for, said of the call's own data, and each `Execute` as a run of the protocol |
| `Executions.dfy`, `Replays.dfy`, `ApprovalRuns.dfy` | executions from any state, step by step: the run that has a completed request refused, and the runs from a request for approval to its use |
| `Json.dfy`, `AuditChain.dfy`, `AuditLog.dfy` | canonical JSON, the audit hash chain and its verifier, the log and its file |
| `Revocation.dfy` | revocation stores with the clock: how long a revoke binds |
| `LocalClient.dfy`, `LocalReading.dfy` | the embedded Python runtime with its consumable approvals; what it answers in plain terms, and who had to agree |
| `Prelude.dfy`, `Sorting.dfy` | options, text operations, a stable sort |

`dafny verify dfyconfig.toml` checks everything.

## What the proofs found

Some promises hold only under a condition. Each is kept as the code has it and its exact condition is proved; where the
condition does not name the failing inputs itself, a lemma gives one.

- **Delegation.** Passing `assertConstraintSubset` makes a child no wider than its parent exactly when the child repeats every
  limit its parent sets and its URL entries, as written, narrow the parent's (`CheckedDelegationIsExact`). A child that leaves a
  limit out passes the check and is wider (`OmittedLimitEscapes`), and so does one whose URL entries differ in case only, because
  the check folds case and the evaluator does not (`UrlCaseEscapes`). The host of a URL is
  any text here, so the conditions are exact over a little more than what a URL parser yields.
- **Refused delegations.** The check reports a field exactly when both sides set it and the child's value alone allows more
  than the parent's alone (`ReportedExactlyWhenWider`). It refuses a child that is narrower in effect in three cases only:
  a limit too large to be counted is raised, a domain is listed that matches no address or that an approval already guards, or
  a spending limit is raised that an approval already guards (`NarrowerPassesExactly`).
- **Policy versions.** The version id is a hash of the constraint object as the caller wrote it. A process that does not have the
  version on record resolves the token exactly when the object's keys were in the mapper's order
  (`ColdRegistryNeedsMapperOrder`, `ReorderedFieldsAreForgotten`).
- **Revocation.** With Redis a revoke binds for the rest of a token's life exactly when the key's time to live reaches the token's
  end of life, the clock tolerance and the wait between validation and lookup included. The default of 86400 seconds does so for
  a token only if its lifetime plus that wait is at most 86395 seconds (`TimeToLiveCoversExactly`, `DefaultTimeToLive`,
  `LongestTokensOutliveTheirRevoke`).
- **Ledgers.** The two ledgers answer alike except for the limit -1, which the script reads as unlimited
  (`LimitsReadAlikeExactly`). Each in-memory call waits between reading and writing. Schedules in which no two calls of one token
  overlap act as the atomic ones (`SeparateSchedulesAreAtomic`). Two that overlap still act as one after the other, in one
  order or the other, unless the one that finishes last is a consume to be granted and the other moves the count
  (`OverlappedConsumeIsSerialExactly`), or it is a release around a granted consume it takes from, or around a release of one
  of several reservations (`OverlappedReleaseIsSerialExactly`). Then a limit can be overdrawn (`OverlappingConsumesOverdraw`,
  `ReleaseAroundConsumeLosesIt`). The whole-run theorems take the consume and the release as the atomic steps the scripts are.
- **Redis keys.** No count or request id of a live token is lost exactly when the keys' time to live covers every token's life,
  tolerance and wait (`LiveTokensKeepTheirKeysExactly`). With the default of 86400 seconds a 24-hour token allowed one action
  is granted a second one (`LongestTokensActTwice`).
- **Replays.** A repeated request that would be allowed but for the count is answered as a replay exactly when its token is not
  at its limit, because the policy's look at the count comes before the ledger's look at the request id
  (`RepeatsAreReplayedExactly`). So the request that used a token up is refused on repetition (`LastRequestIsRefusedAgain`,
  `CompletedRequestIsRefused`).
- **Audit chain.** A log that is in step verifies exactly when its recorded clock never ran backwards, since verification sorts by
  timestamp (`VerifiesExactlyInClockOrder`). Dropping events from the end is noticed only by a tip kept elsewhere
  (`TruncationVerifies`).
- **Python approvals.** `approve_sync` approves from any status, so one request can be used again after each further call; uses never
  outnumber calls (`ApprovalsAreNeverOverdrawn`).

Hashes are not taken to be injective. Each result that rests on a hash asks only that it tells apart the finitely many values the
result is about, and lemmas give hashes that do (`DistinguishingHashesExist`, `RecordedLogsMeetThePremises`, `MintedWorldsExist`).

`docs/policy-evaluation-semantics.md` lists the evaluation order without the spending and intent conditions; the model follows
the code.

## Model

| member | source | states |
|---|---|---|
| `Policy.EvaluateNode` | packages/policy-engine/src/evaluate-ast.ts:213-234 | the looping walk with its accumulated report gives the decision and report of the recursive reading of the tree, OR nodes included |
| `Policy.NestingIsInvisible` | packages/policy-engine/src/evaluate-ast.ts:213-234 | an OR-free tree of any depth evaluates, decision and report, as the left-to-right list of its leaves |
| `Policy.EvalListConcat` | packages/policy-engine/src/evaluate-ast.ts:218-226 | two lists joined decide as the first unless it allows, and then as the second, the reports joined |
| `Policy.Passing` | packages/policy-engine/src/evaluate-ast.ts:218-225 | the number of conditions that pass before the first failure: all before it pass and the one at it fails |
| `Policy.ReportStopsAtFirstFailure` | packages/policy-engine/src/evaluate-ast.ts:218-226 | the report is exactly the leaves up to and including the first failure, and decision and reason are that leaf's |
| `Policy.AllowMeansEveryLeafPasses` | packages/policy-engine/src/evaluate-ast.ts:213-234 | a list allows exactly when each of its conditions passes |
| `Policy.ApprovalOnlyHelps` | packages/policy-engine/src/evaluate-ast.ts:90-136 | with an approval no OR-free tree asks for approval again, and no ALLOW is lost |
| `Policy.FewerActionsKeepAllow` | packages/policy-engine/src/evaluate-ast.ts:82-88 | an ALLOW stays an ALLOW for every smaller action count |
| `Policy.SimulationPredictsExecution` | packages/policy-engine/src/evaluate-ast.ts:237-251 | a dry run answers SIMULATE exactly when the real run would be allowed, otherwise the same decision, with the same report |
| `Compiler.CompilePolicy` | packages/policy-engine/src/compile.ts:8-98 | pushing conditions one by one builds the document of the ordered condition list, in one of its three root shapes |
| `Compiler.PushToolRules` | packages/policy-engine/src/compile.ts:54-86 | appends exactly the tool's own conditions, for mail or for HTTP, behind what was there |
| `Compiler.RootIsItsConditions` | packages/policy-engine/src/compile.ts:88-97 | whichever of the three root shapes is built, it is OR-free, its leaves are the condition list and it evaluates as that list |
| `Compiler.CompilerCorrect` | packages/policy-engine/src/compile.ts:8-98 | for every tool, constraint set and context the compiled document decides what the constraints say read one by one in priority order |
| `Compiler.AllowedExactlyWhenPermitted` | packages/policy-engine/src/compile.ts:8-98 | a compiled document allows exactly when every constraint that applies to the tool is met |
| `Compiler.CompiledReport` | packages/policy-engine/src/evaluate-ast.ts:237-251 | the report of a compiled document is its conditions up to and including the first that fails |
| `PlainTerms.LettersFold` | packages/policy-engine/src/evaluate-ast.ts:35-40 | case folding exchanges the 26 ASCII letters one for one and leaves everything else |
| `PlainTerms.HostWithinIsUnder` | packages/policy-engine/src/evaluate-ast.ts:42-49 | a host matches an entry exactly when it is the entry or some text, a dot and the entry |
| `PlainTerms.EmailDomainIsBehindTheLastAt` | packages/policy-engine/src/evaluate-ast.ts:35-40 | the domain of an address is what follows its last at sign, in lower case; without one there is none |
| `PlainTerms.TrimInPlainTerms` | packages/capability-token/src/intent.ts:11-16 | trimming takes away the blanks around a text, and a text has one such core |
| `PlainTerms.AllowedInPlainTerms` | packages/policy-engine/src/evaluate-ast.ts:51-211 | a compiled document allows exactly when hours, count, approval, amount, intent, recipient domain, attachments, verb and URL are each within the limits, said of the texts themselves |
| `PlainTerms.AskedInPlainTerms` | packages/policy-engine/src/evaluate-ast.ts:90-149 | it asks for approval exactly when hours and count are met and what is missing first is something a human can grant |
| `PlainTerms.RefusalsAreExplained` | packages/policy-engine/src/evaluate-ast.ts:60-211 | every DENY and REQUIRE_APPROVAL names a limit of the set that the execution is outside of |
| `Delegation.AssertConstraintSubset` | packages/capability-token/src/constraint-subset.ts:22-125 | the method lists exactly the violated fields, in the fixed field order |
| `Delegation.PassingClearsEveryField` | packages/capability-token/src/constraint-subset.ts:22-125 | the list is empty exactly when no field is violated |
| `Delegation.NarrowerIsIncluded` | packages/policy-engine/src/evaluate-ast.ts:51-211 | limits that are narrower field by field permit nothing the wider ones do not |
| `Delegation.Escape` | packages/policy-engine/src/evaluate-ast.ts:51-211 | whenever some field is not narrower there is a context the child permits and the parent does not |
| `Delegation.InclusionIsNarrowing` | packages/policy-engine/src/compile.ts:8-98 | semantic inclusion is exactly field-by-field narrowing, for all valid sets |
| `Delegation.CheckedDelegationIsExact` | packages/capability-token/src/constraint-subset.ts:22-125 | for pairs that pass the check, the child is included in the parent exactly when it omits nothing |
| `Delegation.LowerCaseUrlsAreCovered` | packages/capability-token/src/constraint-subset.ts:55-66 | with lower-case entries on both sides the check itself makes the URL list narrower |
| `Delegation.OmittedLimitEscapes` | packages/capability-token/src/constraint-subset.ts:28-35 | a concrete child without its parent's action limit passes the check and permits what the parent refuses |
| `Delegation.UrlCaseEscapes` | packages/capability-token/src/constraint-subset.ts:55-66 | a concrete URL entry in another case passes the check and permits what the parent refuses |
| `Refusals.ReportedExactlyWhenWider` | packages/capability-token/src/constraint-subset.ts:22-125 | for valid sets in usual form a field is reported exactly when both sides set it and, by that field alone, some tool lets the child do what it does not let the parent do |
| `Refusals.NarrowerPassesExactly` | packages/capability-token/src/constraint-subset.ts:22-125 | a child narrower for every tool passes exactly when it raises no uncounted limit, lists no unmatched or guarded domain and raises no guarded spending limit |
| `Refusals.SameLimitsPass` | packages/capability-token/src/constraint-subset.ts:22-125 | a child with its parent's own limits passes |
| `Refusals.HonestDelegationSucceeds` | packages/capability-token/src/delegate.ts:19-59 | a delegation otherwise in order succeeds with the parent's own limits, and with narrower ones in usual form |
| `Tokens.ConstraintsToJwt` | packages/capability-token/src/constraints-mapper.ts:3-41 | the field-by-field copy gives the claim encoding, methods in upper case, absent fields absent |
| `Tokens.ConstraintsFromJwt` | packages/capability-token/src/constraints-mapper.ts:43-81 | the copy back gives the decoding of every field |
| `Tokens.RoundTrip` | packages/capability-token/src/constraints-mapper.ts:3-81 | the trip through the token gives the same constraints exactly when every method is in upper case |
| `Tokens.ValidSetsSurviveTheToken` | packages/capability-token/src/schema.ts:4-92 | constraints the schema accepts survive the trip through the token |
| `Tokens.Validate` | packages/capability-token/src/validate.ts:18-80 | validation succeeds exactly for a decoded, unexpired (with 5 seconds of leeway), schema-valid token, ids in form, of the expected issuer and tool, and changes nothing in it |
| `Tokens.GrantCapability` | packages/capability-token/src/grant.ts:18-77 | grants exactly for schema-valid input and a positive lifetime up to 24 hours, with all the claims the input describes, the metadata's own intent overriding the one given, and names the first failing check |
| `Tokens.GrantedTokensValidate` | packages/capability-token/src/grant.ts:30-57 | a granted token validates exactly for its issuer, by precedence, and its tool, until its expiry plus the leeway, and for no other |
| `Tokens.ValidationNamesTheFirstFault` | packages/capability-token/src/validate.ts:18-80 | a decoded token is refused as expired, malformed, of another issuer or for another tool, whichever is wrong first |
| `Tokens.CapabilityIdInPlainTerms` | packages/capability-token/src/schema.ts:86-87 | an id is `cap_` and 36 characters, each a lower-case hex digit or a dash |
| `Tokens.GrantedInPlainTerms` | packages/capability-token/src/grant.ts:22-63 | the claims say what was asked: subject, tool, constraints, lifetime or 15 minutes, issuer by precedence, and every optional claim |
| `Tokens.DelegateCapability` | packages/capability-token/src/delegate.ts:19-59 | delegates exactly when the parent validates, the depth stays within the maximum, the subset check is clean and the grant is valid, and names the first failing check |
| `Tokens.DelegationNamesTheFirstFault` | packages/capability-token/src/delegate.ts:31-58 | a delegation is refused for its parent, its depth, its width or its form, whichever is wrong first |
| `Tokens.LineIsTraceable` | packages/capability-token/src/delegate.ts:36-58 | down a line of any length the depth rises by one per hop up to the maximum, the tool stays and each ancestor's delegator chain is a prefix of its descendants' |
| `Tokens.HopIsChecked` | packages/capability-token/src/delegate.ts:48-58 | each hop leaves valid constraints in both tokens that pass the check against each other |
| `Tokens.DelegatedTokensNeverEscalate` | packages/capability-token/src/delegate.ts:19-59 | down a line of any length that omits nothing, what a descendant's compiled policy allows its ancestors' allow |
| `Versions.PolicyVersionRegistry.Register` | packages/policy-engine/src/policy-version.ts:30-41 | the first registration wins, no entry is ever replaced, and the id is the compiled document's |
| `Versions.RegisteringKeepsSound` | packages/policy-engine/src/policy-version.ts:30-41 | every entry stays under the id of its own text, which describes its document |
| `Versions.PolicyVersionRegistry.ResolvePolicyDocument` | packages/runtime/src/runtime.ts:335-351 | gives the document on record, or the recompiled one when its id matches, which it then registers, or none; no entry is replaced |
| `Versions.WarmRegistryIsFaithful` | packages/runtime/src/runtime.ts:340-342 | while its version is on record a token resolves to the compilation of its own constraints, if the hash tells its text from the one on record |
| `Versions.DistinguishingHashesExist` | packages/policy-engine/src/policy-version.ts:7-15 | for every finite set of texts some hash tells them apart, so the premises on hashes can be met |
| `Versions.ColdRegistryNeedsMapperOrder` | packages/runtime/src/runtime.ts:343-350 | with the version not on record, and a hash that tells the two texts apart, a token resolves exactly when its constraints were written in the mapper's key order, and then to their own compilation |
| `Versions.EntriesShowTheOrder` | packages/policy-engine/src/policy-version.ts:7-15 | the hashed text of two writings of the same constraints is equal exactly when their key order is |
| `Versions.ReorderedFieldsAreForgotten` | packages/policy-engine/src/policy-version.ts:7-15 | constraints written with the domains behind another field, such as a valid pair of limit and domains, do not resolve in a process without the version on record |
| `Versions.GrantedTokenIsJudgedByItsOwnConstraints` | packages/runtime/src/runtime.ts:180-204 | a granted token that is on record or in mapper order is evaluated, in every context, as the compilation of the constraints it was granted with |
| `Versions.TextBindsTheConstraints` | packages/policy-engine/src/policy-version.ts:7-15 | equal hashed texts come from equal constraints for the same tool |
| `Ledgers.ConsumptionLedger.TryConsume` | packages/runtime/src/consumption/consumption-ledger.ts:14-54 | replays, refuses at the limit or reserves one action and the request id, as one step of the ledger |
| `Ledgers.ConsumptionLedger.Release` | packages/runtime/src/consumption/consumption-ledger.ts:56-64 | gives one action back, never below zero, and frees the request id |
| `Ledgers.ReleaseUndoesConsume` | packages/runtime/src/consumption/consumption-ledger.ts:14-64 | after a granted consume and its release every count and request set reads as before |
| `LedgerWaits.SeparateSchedulesAreAtomic` | packages/runtime/src/consumption/consumption-ledger.ts:14-74 | every schedule of half-calls and resets in which no two calls of one token overlap gives the answers and the ledger of the atomic run |
| `LedgerWaits.SeparateCallsAreAtomic` | packages/runtime/src/consumption/consumption-ledger.ts:14-74 | the same from any point at which what the waiting calls saw still holds |
| `LedgerWaits.OverlapsAreAround` | packages/runtime/src/consumption/consumption-ledger.ts:14-64 | any schedule in which two calls overlap comes to one pattern: both look, one finishes, the other finishes on what it saw before |
| `LedgerWaits.OtherTokensAreSerial` | packages/runtime/src/consumption/consumption-ledger.ts:14-64 | overlapping calls of different tokens give the ledger and answers of one call after the other |
| `LedgerWaits.OverlappedConsumeIsSerialExactly` | packages/runtime/src/consumption/consumption-ledger.ts:31-53 | with a consume finishing last, ledger and both answers are those of some order of the two calls exactly when it would not be granted or the other leaves the count alone |
| `LedgerWaits.OverlappedReleaseIsLaterExactly` | packages/runtime/src/consumption/consumption-ledger.ts:56-64 | a release finishing last acts as the later call exactly when the other leaves the count alone or takes the last reservation |
| `LedgerWaits.OverlappedReleaseIsEarlierExactly` | packages/runtime/src/consumption/consumption-ledger.ts:56-64 | around a granted consume it acts as the earlier call exactly when the count was zero and it does not free that consume's request |
| `LedgerWaits.OverlappedReleaseIsSerialExactly` | packages/runtime/src/consumption/consumption-ledger.ts:56-64 | with a release finishing last, ledger and both answers are those of some order of the two calls exactly when the other is no granted consume it takes from and no release of one of several reservations |
| `LedgerWaits.ReleaseAroundConsumeLosesIt` | packages/runtime/src/consumption/consumption-ledger.ts:56-64 | a consume granted while a release waits is lost from the count |
| `LedgerWaits.OverlappingConsumesOverdraw` | packages/runtime/src/consumption/consumption-ledger.ts:31-41 | two overlapping consumes one below the limit are both granted and counted once |
| `RedisLedger.KeysNeverCollide` | packages/runtime/src/consumption/redis-consumption-store.ts:43-49 | no two tokens share a count key or a request key, and no count key is a request key |
| `RedisLedger.RedisConsumptionStore.TryConsumeScript` | packages/runtime/src/consumption/lua.ts:2-29 | the script, command by command: replay and refusal leave the database alone, a grant adds one and the request id, and setting the count drops its expiry |
| `RedisLedger.RedisConsumptionStore.Release` | packages/runtime/src/consumption/redis-consumption-store.ts:78-84 | the release script, which lowers a positive count by one and removes the request id, then the two expiry commands, each at an instant of its own |
| `RedisLedger.RedisConsumptionStore.TryConsume` | packages/runtime/src/consumption/redis-consumption-store.ts:64-76 | the script, then the two expiry commands, each at an instant of its own; the answer is the script's |
| `RedisLedger.StepRefines` | packages/runtime/src/consumption/redis-consumption-store.ts:51-93 | one script, reset or expiry command in time on mirrored stores: same answer on both sides, and the stores mirror each other again |
| `RedisLedger.RedisRefinesMemory` | packages/runtime/src/consumption/redis-consumption-store.ts:51-93 | over every sequence of consumes, releases, reads, resets and expiry commands in time, in any interleaving, Redis answers as the in-memory ledger |
| `RedisLedger.LiveTokensNeverLoseTheirCount` | packages/runtime/src/consumption/redis-consumption-store.ts:51-84 | from an empty database, operations within one time to live of each token's start never meet an expired key |
| `RedisLedger.LimitsReadAlikeExactly` | packages/runtime/src/consumption/lua.ts:8-21 | on mirrored stores a consume answers alike exactly when the limit is not -1 or the request is a replay |
| `RedisLedger.ExpiredCountIsForgotten` | packages/runtime/src/consumption/redis-consumption-store.ts:51-57 | once the time to live has passed since the last expiry commands, count and request set read empty |
| `Approvals.InMemoryApprovalStore.Settle` | packages/runtime/src/approval-store.ts:108-138 | a verdict is given exactly to a known pending request and nothing else changes; otherwise the error says which |
| `Approvals.InMemoryApprovalStore.List` | packages/runtime/src/approval-store.ts:97-106 | lists exactly the selected requests, each once, in creation order |
| `Approvals.InMemoryApprovalStore.ImportRequests` | packages/runtime/src/approval-store.ts:70-74 | the loop leaves the store with every listed request, the last one of an id winning |
| `Approvals.FirstVerdictStands` | packages/runtime/src/approval-store.ts:108-138 | over every run of store operations a pending request ends with the verdict first given on it, or pending |
| `Approvals.InMemoryApprovalStore.Approve` | packages/runtime/src/approval-store.ts:108-122 | a pending request reads approved afterwards, by the resolver given; any other is refused |
| `Approvals.InMemoryApprovalStore.Reject` | packages/runtime/src/approval-store.ts:124-138 | a pending request reads rejected afterwards; any other is refused |
| `Approvals.LastEntryWins` | packages/runtime/src/approval-store.ts:70-74 | of several imported entries of one id the last is kept |
| `Approvals.VerdictsAreFinal` | packages/runtime/src/approval-store.ts:76-138 | over any run a request keeps what it was made for, moves only from pending to a verdict, and then never changes |
| `Approvals.ReloadGivesTheStoreBack` | packages/runtime/src/file-approval-store.ts:40-48 | importing a list of all requests of a store gives back exactly its map |
| `Approvals.FileApprovalStore.Create` | packages/runtime/src/file-approval-store.ts:50-54 | after every creation the file, reloaded, is the store |
| `Approvals.FileApprovalStore.Settle` | packages/runtime/src/file-approval-store.ts:64-74 | after every verdict the file, reloaded, is the store; a refused one leaves the file as it was |
| `Approvals.Reopen` | packages/runtime/src/file-approval-store.ts:40-48 | closing and reopening a synced store loses nothing |
| `Sessions.InMemoryExecutionSessionStore.Touch` | packages/runtime/src/execution-state.ts:49-80 | keeps one session per id: counts an action when told, takes the phase, adds the approval id once, keeps token, trace and tool ids it is not given anew, and stamps the first and the last time |
| `ProtocolQuota.StepKeepsQuota` | packages/runtime/src/runtime.ts:353-613 | every step of every execution keeps the agreement of ledger, reservations in flight, audit log, limits and sessions |
| `ProtocolQuota.UsedAfterStep` | packages/runtime/src/runtime.ts:514-612 | only a granted reservation adds to reservations plus completions and only a release takes from it |
| `ProtocolQuota.ReleaseAlwaysFindsACount` | packages/runtime/src/consumption/lua.ts:37-43 | whenever a release is reached the count is positive and its request id is in the set |
| `ProtocolQuota.QuotaHoldsOverAllRuns` | packages/runtime/src/consumption/lua.ts:18-28 | over every interleaving the count is reservations in flight plus completed actions, and both stay within the token's limit |
| `ProtocolQuota.RequestsCompleteAtMostOnce` | packages/runtime/src/consumption/lua.ts:11-27 | over every interleaving a request id has at most one holder, in flight or completed, and is in the set exactly when it has one |
| `ProtocolQuota.FailureFreesTheRequest` | packages/runtime/src/runtime.ts:593-594 | after a failed attempt's release nothing holds its request id and the same request is reserved anew |
| `ProtocolQuota.QuietLedgerCountsCompletions` | packages/runtime/src/runtime.ts:514-612 | with nothing in flight the ledger counts exactly the completed actions on record |
| `ProtocolSafety.StepKeepsSafety` | packages/runtime/src/runtime.ts:218-613 | every step keeps the bond of executions to events and of approvals to the events that asked for them |
| `ProtocolVerdicts.StatusIsFirstVerdict` | packages/runtime/src/approval-store.ts:108-138 | over every run of the protocol the status of a request is the first verdict given on it, or pending |
| `ProtocolVerdicts.EveryGrantWasApproved` | packages/runtime/src/runtime.ts:274-321 | over every run, a call that claims an approval names a request that an earlier REQUIRE_APPROVAL event asked for, for its very token, tool and payload, and the first verdict on it was an approval |
| `ProtocolPolicy.FoundPolicyIsOwn` | packages/runtime/src/runtime.ts:376-409 | whatever document the registry gives for a token evaluates as the token's own policy |
| `ProtocolPolicy.RunKeepsPolicy` | packages/runtime/src/runtime.ts:376-409 | over every run, registrations included, the registry holds nothing foreign under a token's stamp and every ALLOW is justified by the token's own policy |
| `ProtocolPolicy.GrantsAreMinted` | packages/runtime/src/runtime.ts:180-189 | what the runtime grants carries the id of the constraint object it was given, and those constraints |
| `ProtocolPolicy.MintedWorldsExist` | packages/runtime/src/runtime.ts:180-189 | the premises on tokens, engine and hash can be met for any token |
| `ProtocolContext.EveryVerdictHasItsContext` | packages/runtime/src/runtime.ts:369-412 | over every run, each verdict on record was given on the call's payload, dry-run flag and approval, its own intent or else the token's, the hour it was decided in, and the count the execution had read from the ledger at an earlier step |
| `ProtocolSessions.SessionsTellTheEnd` | packages/runtime/src/runtime.ts:427-560 | whenever a judged execution ends, the session it names shows its agent, token, tool, trace and approval, in a phase that fits its decision |
| `Sessions.TouchKeepsWhatItIsNotTold` | packages/runtime/src/execution-state.ts:65-77 | what a call does not say stays as it was known, what it says replaces it, and no other session changes |
| `Sessions.TouchKeepsApprovals` | packages/runtime/src/execution-state.ts:59-63 | approval ids are kept in the order they came, each once |
| `ProtocolPolicy.EveryExceptionWasApproved` | packages/runtime/src/runtime.ts:272-488 | over every run of a runtime that minted its tokens, whatever the registry holds: an ALLOW is permitted by the token's own constraints in the context of its call, count read from the ledger included, and if they do not permit it unaided it rests on an approval given before, for the same token, tool and payload |
| `ProtocolClock.ClockedRunsAreRuns` | packages/runtime/src/consumption/redis-consumption-store.ts:51-84 | with times to live that cover life, tolerance and delay, every run over the expiring Redis stores gives threads, audit log, approvals, registry and sessions of a run of the protocol |
| `ProtocolClock.StepAtRefines` | packages/runtime/src/runtime.ts:218-613 | one step with the clock, in time, is one step without it |
| `ProtocolClock.ExpiryNeverOverdraws` | packages/runtime/src/consumption/lua.ts:11-28 | over such runs no token completes more actions than its limit, and no request completes twice |
| `ProtocolClock.ExpiryNeverReadmits` | packages/runtime/src/revocation/redis-revocation-store.ts:39-56 | over such runs, after a revoke no execution that had not passed the check ends in anything but DENY |
| `ProtocolSafety.OneEventPerExecution` | packages/runtime/src/runtime.ts:218-613 | every ended execution has exactly one audit event, with the decision it returned; one under way has none |
| `ProtocolSafety.RevocationStopsTheToken` | packages/runtime/src/runtime.ts:247-270 | once a token is revoked, no execution that has not passed the check by then ends in anything but DENY |
| `Runtime.AgentCapabilityRuntime.Execute` | packages/runtime/src/runtime.ts:218-613 | one call returns what the state calls for, registry included, is a run of the protocol by a new execution, appends one event with the decision returned, and leaves the ledger alone unless a new action completed |
| `Runtime.AgentCapabilityRuntime.Decide` | packages/runtime/src/runtime.ts:376-513 | finds the token's policy in the registry, evaluates it and acts on the verdict, as the protocol's decision does |
| `Runtime.AgentCapabilityRuntime.Grant` | packages/runtime/src/runtime.ts:180-189 | registers the constraints as written, in one step of the protocol, and grants a token stamped with their id |
| `Runtime.AgentCapabilityRuntime.Delegate` | packages/runtime/src/runtime.ts:191-204 | registers the constraints in one step of the protocol and delegates a stamped child of the parent |
| `PlainOutcomes.ActsInPlainTerms` | packages/runtime/src/runtime.ts:210-560 | a new action is performed exactly when the token holds, the named approval is on record for this token, tool and payload, a policy is found, the limits let the call's own data, and ledger and adapter agree |
| `PlainOutcomes.ReplaysInPlainTerms` | packages/runtime/src/runtime.ts:514-560 | a replay is answered exactly when the same is true of a request the ledger remembers |
| `PlainOutcomes.AsksInPlainTerms` | packages/runtime/src/runtime.ts:397-512 | a human is asked exactly when the token and approval hold, a policy is found and what a human can grant is the first thing missing |
| `PlainOutcomes.SimulatesInPlainTerms` | packages/runtime/src/runtime.ts:397-512 | a dry run answers SIMULATE exactly when the execution may act |
| `PlainOutcomes.ReadingIsNormalizing` | packages/capability-token/src/intent.ts:7-19 | an intent reads without blanks around its texts, without an action that has nothing else, and as none when its category has nothing else |
| `PlainOutcomes.CallersIntentDecides` | packages/runtime/src/runtime.ts:83-91 | under a list of categories the caller's intent, when given, has to be listed, blanks and case aside, whatever the token was granted for |
| `PlainOutcomes.TokensIntentStandsIn` | packages/runtime/src/runtime.ts:83-91 | an execution without an intent has the outcome of one with the token's |
| `Outcomes.ActsExactlyWhen` | packages/runtime/src/runtime.ts:218-613 | a call performs a new action exactly when token, revocation list, approval, registry, constraints, ledger and adapter all let it, whatever the order they are asked in |
| `Outcomes.LedgerRefusesOnlyTheUncounted` | packages/runtime/src/runtime.ts:369-536 | in undisturbed calls the ledger can refuse only limits of MAX_SAFE_INTEGER and more, which the policy does not count |
| `Outcomes.ReplaysExactlyWhen` | packages/runtime/src/runtime.ts:514-560 | a call is answered as a replay exactly when it is admissible, no dry run, permitted at the count its token has, and its request is known |
| `Outcomes.RepeatsAreReplayedExactly` | packages/policy-engine/src/evaluate-ast.ts:82-88 | a known request that would be allowed but for the count is answered as a replay exactly when its token is not at its limit |
| `Outcomes.FullTokensRefuseReplays` | packages/policy-engine/src/evaluate-ast.ts:82-88 | at the limit no call is allowed, known requests included |
| `Replays.LastRequestIsRefusedAgain` | packages/runtime/src/runtime.ts:369-560 | from any state, the request that completes an unstamped token's last action is denied when repeated, with the ledger knowing it |
| `Replays.CompletedRequestIsRefused` | packages/runtime/src/runtime.ts:369-560 | a run from the start in which a request completes and the same request is then denied |
| `ApprovalRuns.ApprovalLetsItAct` | packages/runtime/src/runtime.ts:274-321 | from any state: REQUIRE_APPROVAL, a human's approval, and the same input with that approval ends in ALLOW, if nothing else stops the token |
| `ApprovalRuns.RejectionStopsIt` | packages/runtime/src/runtime.ts:274-321 | the same with a rejection ends in DENY |
| `ApprovalRuns.ApprovedRunExists` | packages/runtime/src/runtime.ts:274-321 | such a run from the start |
| `Runtime.AgentCapabilityRuntime.ExecuteWithClaims` | packages/runtime/src/runtime.ts:353-613 | from the count on: the outcome the count, policy and ledger call for, as steps of the protocol with one event, the ledger left as found unless a new action completed |
| `Runtime.AgentCapabilityRuntime.Undo` | packages/runtime/src/runtime.ts:593-612 | adapter failure: three steps of the protocol that release the reservation and record one DENY |
| `Runtime.AgentCapabilityRuntime.Bind` | packages/runtime/src/runtime.ts:272-321 | one step of the protocol: binds the named approval exactly when it covers the execution, and denies with one event when it is unknown or unfit |
| `Runtime.AgentCapabilityRuntime.Approve` | packages/runtime/src/runtime.ts:615-621 | a verdict is one step of the protocol, given exactly to a pending request |
| `Runtime.AgentCapabilityRuntime.Revoke` | packages/runtime/src/runtime.ts:207-212 | a revoke is one step of the protocol and keeps every invariant |
| `Outcomes.HeldThenLeft` | packages/runtime/src/runtime.ts:514-612 | whatever follows a consume, the ledger reads as before unless a new action completed |
| `Outcomes.VerdictAllowsExactly` | packages/runtime/src/runtime.ts:376-409 | a bound call is allowed on exactly when a policy is found for it and the token's own constraints permit it |
| `JsonValues.Canonicalize` | packages/audit/src/hash-chain.ts:12-22 | the recursion with its loop over sorted keys ends and gives the canonical form |
| `JsonValues.CanonicalIsExact` | packages/audit/src/hash-chain.ts:12-26 | two values have the same canonical form exactly when they are equal up to key order at every depth |
| `JsonValues.CanonicalIsSame` | packages/audit/src/hash-chain.ts:12-22 | the canonical form differs from the value only in key order and undefined properties |
| `JsonValues.CanonicalIsIdempotent` | packages/audit/src/hash-chain.ts:12-22 | canonicalizing twice changes nothing |
| `JsonValues.AscendingIsUnique` | packages/audit/src/hash-chain.ts:17-20 | a set of keys has one ascending list |
| `JsonValues.SetPropertyLookup` | packages/audit/src/hash-chain.ts:16-21 | assigning a new property, index-like keys first, adds that property and keeps every other |
| `JsonValues.BelowInPlainTerms` | packages/audit/src/hash-chain.ts:17 | keys are ordered by prefix, then by the first code unit they differ in |
| `JsonValues.CanonicalIsInOrder` | packages/audit/src/hash-chain.ts:16-21 | the canonical form lists array indices first, by number, and every other name behind them in key order |
| `JsonValues.IndicesAreOrderedByNumber` | packages/audit/src/hash-chain.ts:16-21 | array indices are ordered as the numbers they write |
| `AuditChain.BodyIsBinding` | packages/audit/src/hash-chain.ts:29-59 | equal canonical bodies come from events with the same content, previous hash and number |
| `AuditChain.SameContentSameHash` | packages/audit/src/hash-chain.ts:61-68 | an event's hash does not depend on the order of its fields |
| `AuditChain.CheckEvent` | packages/audit/src/hash-chain.ts:97-123 | the loop body reports exactly the faults of one event against the expected previous hash |
| `AuditChain.FaultsInPlainTerms` | packages/audit/src/hash-chain.ts:97-123 | each kind of fault is reported exactly when the event has it |
| `AuditChain.HexDigitsHaveTheirPlaces` | packages/audit/src/hash-chain.ts:74-83 | a lower-case hex digit stands for its place among the sixteen |
| `AuditChain.HexIsInjective` | packages/audit/src/hash-chain.ts:74-83 | two signatures written as MACs are decode alike only when they are the same text |
| `AuditChain.ForgedSignaturesAreReported` | packages/audit/src/hash-chain.ts:74-83 | a signature so written is reported exactly when it is not the MAC of the event's hash |
| `AuditChain.VerifyAuditChain` | packages/audit/src/hash-chain.ts:85-134 | reports every fault in order; with the chain enabled it is valid exactly when every event carries its own hash, points at the one before it and is signed |
| `AuditChain.NoFaultsWhenLinked` | packages/audit/src/hash-chain.ts:96-126 | a prefix has no fault exactly when each of its events is linked |
| `AuditChain.TipBindsTheLog` | packages/audit/src/hash-chain.ts:85-134 | two verified logs with the same tip have the same length and the same records, back to the genesis, unless two of their bodies collide |
| `AuditChain.EveryTamperIsReported` | packages/audit/src/hash-chain.ts:85-134 | against a verified log, another one verifies and ends in its tip exactly when it is the same log with good signatures, unless two of their bodies collide |
| `AuditChain.HashesDiffer` | packages/audit/src/hash-chain.ts:61-68 | no hash occurs twice in a verified log |
| `AuditChain.OnlyPrefixesVerify` | packages/audit/src/hash-chain.ts:85-134 | a log made of a verified log's own events, reordered, thinned or repeated, verifies only as a prefix of it |
| `AuditChain.TruncationVerifies` | packages/audit/src/hash-chain.ts:85-134 | every prefix of a verified log verifies |
| `AuditLogs.AuditLog.Record` | packages/audit/src/audit-log.ts:37-62 | the stored event is the built one numbered, linked, hashed and signed, and the log goes on from it |
| `AuditLogs.AuditLog.ImportEvents` | packages/audit/src/audit-log.ts:26-35 | every event is put under its id and the chain goes on from the highest-numbered imported one |
| `AuditLogs.AuditLog.VerifyChain` | packages/audit/src/audit-log.ts:79-84 | valid exactly when the events in timestamp order are linked, or the chain is off |
| `AuditLogs.AuditLog.List` | packages/audit/src/audit-log.ts:68-77 | the loop and sort give the query's answer, the last ones under a limit, all of them for the limit 0 |
| `AuditLogs.ListIsTheMatchingEvents` | packages/audit/src/store.ts:21-33 | a query without limit lists exactly the matching events in clock order, and a log in clock order as it stands |
| `AuditLogs.MatchesInPlainTerms` | packages/audit/src/store.ts:21-33 | an event matches when it has every property the query names and its time lies within the query's, ends included |
| `AuditLogs.ListUnderALimit` | packages/audit/src/audit-log.ts:68-77 | a positive limit keeps the last events of the unlimited list, any other limit the whole of it |
| `AuditLogs.PutOfKnownReplaces` | packages/audit/src/audit-log.ts:26-35 | setting a known id replaces that event where it stands |
| `AuditLogs.RestoreTipIsTheHighest` | packages/audit/src/hash-chain.ts:136-149 | a restored log goes on from the hash and number of the highest-numbered event |
| `AuditLogs.LinesAreReadOneByOne` | packages/audit/src/file-audit-log.ts:16-30 | a line without an event changes nothing wherever it stands |
| `AuditLogs.DetailNamesAreWellFormed` | packages/audit/src/hash-chain.ts:34-58 | the optional properties of the hashed body never clash with the fixed ones |
| `AuditLogs.RecordKeepsInStep` | packages/audit/src/audit-log.ts:37-62 | recording an event under a new id keeps the log a verified chain that goes on where it ends |
| `AuditLogs.ReloadRestores` | packages/audit/src/hash-chain.ts:136-149 | reading a log's events back gives the same events, tip and number |
| `AuditLogs.VerifiesExactlyInClockOrder` | packages/audit/src/audit-log.ts:79-84 | a log in step verifies exactly when its timestamps never decrease |
| `AuditLogs.LoadEventsFromFile` | packages/audit/src/file-audit-log.ts:16-30 | the loop gives the readable lines in order, blank and corrupt ones left out |
| `AuditLogs.FileAuditLog.constructor` | packages/audit/src/file-audit-log.ts:40-45 | opening a file gives the log its readable events restore |
| `AuditLogs.FileAuditLog.Record` | packages/audit/src/file-audit-log.ts:47-52 | the same event goes to memory and, as one more line, to the file |
| `AuditLogs.RestartsLeaveNoTrace` | packages/audit/src/file-audit-log.ts:40-52 | after any mix of recording and restarting the log is in step and is the log of a process that never stopped |
| `AuditLogs.AnyMixVerifiesInClockOrder` | packages/audit/src/file-audit-log.ts:40-67 | after any mix of recording and restarting the log verifies exactly when the recording clock never ran backwards, unless two of its bodies collide |
| `AuditLogs.RecordedLogsMeetThePremises` | packages/audit/src/audit-log.ts:37-62 | every list of events can be recorded into a log that meets the premises of these results |
| `Sorting.SortIsIdentityOnSorted` | packages/audit/src/store.ts:31-33 | the stable sort leaves a list as it is exactly when its keys never decrease |
| `Revocation.RedisRevocationStore.Revoke` | packages/runtime/src/revocation/redis-revocation-store.ts:39-51 | adds the call to the history of revokes the database stands for, and returns its record |
| `Revocation.RedisRevocationStore.IsRevoked` | packages/runtime/src/revocation/redis-revocation-store.ts:53-56 | true exactly when some call in the history revoked the token within the time to live |
| `Revocation.RedisRevocationStore.GetRecord` | packages/runtime/src/revocation/redis-revocation-store.ts:58-70 | the record of the last call that revoked the token, while its time to live runs |
| `Revocation.InMemoryRevocationStore.IsRevoked` | packages/runtime/src/revocation/in-memory-revocation-store.ts:20-22 | true exactly when some call in the history revoked the token |
| `Revocation.MemoryNeverForgets` | packages/runtime/src/revocation/in-memory-revocation-store.ts:6-22 | after any run of revokes a token reads as revoked exactly when one of them named it |
| `Revocation.MemoryRevokeBinds` | packages/runtime/src/revocation/in-memory-revocation-store.ts:6-22 | with the in-memory store no execution at any later time is admitted on a revoked token |
| `Revocation.RedisForgetsWithTime` | packages/runtime/src/revocation/redis-revocation-store.ts:39-56 | after any run of revokes a token reads as revoked exactly when one of them named it within the time to live |
| `Revocation.RedisRevokeBindsExactly` | packages/runtime/src/runtime.ts:219-247 | with a lookup up to `delay` after validation, the last revoke of a token binds for the rest of its life exactly when the time to live reaches its end of life plus that delay |
| `Revocation.TimeToLiveCoversExactly` | packages/capability-token/src/validate.ts:30-33 | revokes at every moment of a token's life bind exactly when the time to live covers life, clock tolerance and delay |
| `Revocation.DefaultTimeToLive` | packages/runtime/src/revocation/redis-revocation-store.ts:23-29 | with the default time to live every revoke of a granted token binds exactly when its lifetime and the delay together are at most 86395 seconds |
| `Revocation.LongestTokensOutliveTheirRevoke` | packages/capability-token/src/grant.ts:24-31 | a 24-hour token revoked at once is admitted again a day later |
| `Revocation.LiveTokensKeepTheirKeys` | packages/runtime/src/consumption/redis-consumption-store.ts:51-84 | when the time to live covers life, tolerance and delay, operations on live tokens never lose a count or request id |
| `Revocation.LiveTokensKeepTheirKeysExactly` | packages/runtime/src/consumption/redis-consumption-store.ts:51-84 | operations on live tokens never lose a count or request id exactly when the time to live covers life, tolerance and delay of every token |
| `Revocation.LongestTokensActTwice` | packages/runtime/src/consumption/create-consumption-store.ts:26 | with the default time to live a 24-hour token allowed one action is granted a second one, as it still validates |
| `LocalClient.EvaluateConstraints` | packages/sdk-python/acr/local.py:78-159 | reports the applicable constraint verdicts up to and including the first broken one, and names that one |
| `LocalClient.RefusedWhenBroken` | packages/sdk-python/acr/local.py:78-159 | a request is refused exactly when some constraint is broken; every reported verdict but the last passed |
| `LocalReading.NoneBrokenInPlainTerms` | packages/sdk-python/acr/local.py:68-159 | no constraint refuses a request exactly when the limits let its own data, said of the texts themselves |
| `LocalReading.AllowedInPlainTerms` | packages/sdk-python/acr/local.py:254-391 | an execution goes ahead exactly when token, limits, dry run, replay and action limit leave it to the gate and, where a human has to agree, the named approval matches and is approved |
| `LocalReading.AskedExactlyWhen` | packages/sdk-python/acr/local.py:340-391 | a human is asked exactly when one has to agree and no matching approval has been settled |
| `LocalReading.AnswersBeforeTheGate` | packages/sdk-python/acr/local.py:254-312 | which answer a served token gets before the approval gate, in order |
| `LocalReading.TokensAreRefusedInOrder` | packages/sdk-python/acr/local.py:254-275 | a token is refused as revoked, expired or for another tool, whichever comes first |
| `LocalReading.AnswersAreRecorded` | packages/sdk-python/acr/local.py:393-418 | each answer leaves one entry with its decision, reason, agent and payload |
| `LocalReading.ApprovalsKeepTheirAgent` | packages/sdk-python/acr/local.py:312-391 | a refusal over an approval is recorded for that approval's agent, and a new request filed for its caller |
| `LocalReading.HumansAgreeFirst` | packages/sdk-python/acr/local.py:312-351 | over every run, an execution goes through an approval exactly when its token asks for one or its amount in whole cents is above the spending limit, and that approval is the one it names and was approved by an earlier call |
| `LocalReading.NobodyIsAskedWithoutNeed` | packages/sdk-python/acr/local.py:340-351 | otherwise no human is asked and no approval used up |
| `LocalReading.VerdictDecidesTheRepeat` | packages/sdk-python/acr/local.py:353-391 | what an execution asked for lets the same request act once approved, and stops it once rejected or used up |
| `LocalClient.AllowedExactlyWhen` | packages/sdk-python/acr/local.py:254-338 | an execution goes ahead exactly when all conditions hold, in whatever order they are looked at |
| `LocalClient.LocalAcrClient.ExecuteSync` | packages/sdk-python/acr/local.py:236-338 | gives the answer the records call for, changes them by one audit entry and what that answer changes, and keeps every count, bound and credit |
| `LocalClient.LocalAcrClient.ResolveApproval` | packages/sdk-python/acr/local.py:353-391 | uses up an approved matching request, stops on a mismatched, rejected or used one with one audit entry, and otherwise changes nothing |
| `LocalClient.LocalAcrClient.AllowIt` | packages/sdk-python/acr/local.py:393-408 | counts one action, remembers the request and records one plain ALLOW |
| `LocalClient.LocalAcrClient.ApproveSync` | packages/sdk-python/acr/local.py:459-468 | approves a known request from any status and adds one credit; an unknown one fails |
| `LocalClient.LocalAcrClient.RejectSync` | packages/sdk-python/acr/local.py:470-479 | rejects a known request; an unknown one fails |
| `LocalClient.LocalAcrClient.RecordEntry` | packages/sdk-python/acr/local.py:507-530 | entries are numbered from one without gaps |
| `LocalClient.ExecuteKeeps` | packages/sdk-python/acr/local.py:236-408 | every execution, whatever its answer, keeps counts, bounds and credits |
| `LocalClient.ApprovalsAreNeverOverdrawn` | packages/sdk-python/acr/local.py:353-391 | over every run, executions through an approval never outnumber the calls that approved it, and each matches its token, tool and payload |
| `LocalClient.ActionsAreTheAllows` | packages/sdk-python/acr/local.py:393-408 | over every run the action counters add up to the ALLOW entries without a reason |
| `LocalClient.RevokedStaysRefused` | packages/sdk-python/acr/local.py:262-263 | over every run, a token once revoked gets no other answer than that it is revoked |
| `LocalClient.LocalAcrClient.RevokeSync` | packages/sdk-python/acr/local.py:422-436 | adds the token to the revoked ones and changes nothing else |
| `LocalClient.LimitsHold` | packages/sdk-python/acr/local.py:294-312 | over every run no token acts more often than its limit or remembers more requests than it acted on |
| `LocalClient.GoneRequestsReplay` | packages/sdk-python/acr/local.py:294-303 | a request that went ahead is answered as a replay when repeated, which changes nothing but the audit log |

## Left out

- Texts: letters outside ASCII are not case-folded, and reasons are structured values instead of message strings.
- Numbers: amounts are exact reals; NaN and infinities are not modelled.
- URLs: what the platform's parser makes of a URL is an input; a parsed host is any text, hosts no parser yields included.
- Cryptography: digests, version ids and MACs are functions of structured values; serialization to bytes is not modelled. Decoding a token gives its claims or an error.
- Audit events: timestamps are integers ordered as their texts are, and the optional properties are one list of named values.
- Objects with a key named `__proto__`, and undefined entries of arrays.
- Fresh ids: new approval, audit and token ids are assumed not to be in use.
- Grants: metadata other than the intent and the version id is kept as texts; durations are given in seconds; an intent given as one text is given as its category.
- Runtime: the sandbox, its timers and the approval hook; a timed-out adapter is a failed one. `executeWithClaims` is modelled as entered through `execute`.
- Redis: a gateway that stops between a script and the expiry commands behind it, `reset` without a token id, which throws, and listing revocations by cursor.
- Python: an empty request set and a missing one read alike, so the entry `setdefault` makes is not modelled; the amount is the value found under `amountCents` or else `amount`; the JSONL copy of the audit log is not modelled. Its hour window ends before its last hour, the gateway's with it, and the two are not compared.
- The HTTP gateway, SDK clients, adapters, wrappers for other frameworks, DSL builders, query scope guards: plumbing over the parts above.
