# FastAIAgent: governed tool calls, connection, job scopes, licence gate

A Dafny model of four parts of the FastAIAgent SDK, with proofs of what they guarantee.

| module | what it models |
|---|---|
| `Target` | target URL normalisation |
| `Client` | the platform connection object, the scope-aware proxy, `connect`, `refresh_policy`, `disconnect` |
| `History` | what any sequence of those calls leaves behind |
| `Governance` | policy matching, the fail-closed mode, and the three gates a tool call can meet |
| `Approvals` | the approval protocol: calls, plane, saved pauses, resumes, resolution outbox, over all runs |
| `Scopes` | one task's scoped variables: tokens, entering and leaving a `job_scope` |
| `Schedules` | interleaved tasks, and tasks they start, over one global connection, one tool registry and a heap of tool dictionaries |
| `Licences` | the licence gate's two patterns, its joined search and its partitioning scan |

Everything outside the SDK is a parameter: every server answer (including a failure before or after the
plane has acted), the environment, `fnmatch`, UUID parsing, the table of pushed agents, the character
table of `str.upper`. Statements hold for all of them.

**How the parts fit.** Each object with mutable fields is a class whose methods run the source's steps and
are proved against a function of the old state; the theorems are about those functions. `Approvals` builds
its transition system from the stretches of the gate between its plane calls (`StartGate`, `AfterDecide`,
`PauseFor`), and `OneCallIsTheGate` shows that those stretches, run without interruption, are the gate that
`GateToolCall` implements. `Schedules` composes
the values of `Scopes` with the calls of `History`; its tool dictionaries are objects on a heap, named by the
task and scope that made them, so that registering into a shared or inherited one is part of every run.

## What the proofs found

Where a tempting statement is false of the code, a lemma says exactly when it holds.

- **A job scope that overrides the connection is never governed.** Its connection object starts with no
  policy and fail mode "open" and nothing ever writes to it, so every gate allows every call inside it
  (`ConnectionScopesAreUngated`) and in every task started there (`InheritedConnectionsAreUngated`), even if the
  global connection is fail-closed with policies.
- **`refresh_policy` in such a scope asks the scope's tenant and stores the answer in the global
  connection** (`ScopedCallsAskTheScope`); `disconnect` in such a scope leaves the global connection's
  processor handles (`DisconnectLeavesFresh` is an if-and-only-if on the handles the proxy shows).
- **Rejected does not always mean refused.** On a re-run pass the connection and policy tests come first, so
  a rejected call that is no longer governed runs (`RejectedRunsExactlyWhenUngoverned`,
  `RejectedPassRefusesWhatIsGoverned`). The call that paused has no such gap when its agent is resumed directly
  (`RejectedPauseNeverRuns`).
- **Pending runs can be left open on the plane**: when a registration raised or brought no id, its pause
  could not be saved, the resolution was not recorded (disconnected), or the resolution was never delivered.
  There is no other way (`OpenRunsAreAccountedFor`).
- **Normalising a target is not idempotent** for white space directly before trailing slashes: `http:// /`
  is accepted as `http:// `, which is refused (`NormalizeTwice`, `SpacedTargetAccepted`, `SpacedFormRefused`).
- **A 401 or 403 clears the key but keeps the cached policy**, the identity outlives unverified reconnects
  (`IdentityIsLastWord`), and an HTTP 200 policy of JSON `null` empties the cache (`PolicyIsLastWord`).
- **The advisory check differs from the gates on a verdict outside the three words**, which the gates allow,
  and for an agent the plane cannot know, which it denies unasked (`CheckAgreesWithGate`).
- **The licence gate passes a licence given by its full name**, in any letter case (`FullNameIsNotSeen`).

## Model

| member | source | states |
|---|---|---|
| `Target.AcceptsExactly` | fastaiagent/client.py:179-193 | For every way of reading the input as white space, URL, slashes, white space: accepted iff the URL is empty or starts with http:// or https:// in any case, and then unchanged |
| `Target.RefusedExactly` | fastaiagent/client.py:182-192 | Refused for having no scheme iff there is no "://"; otherwise with the text before the first one, in small letters |
| `Target.AcceptedHasHost` | fastaiagent/client.py:179-193 | A non-empty accepted target has text after "://" and no trailing slash |
| `Target.NormalizeTwice` | fastaiagent/client.py:179-193 | Normalising again changes nothing iff no white space stood directly before the trailing slashes |
| `Target.SpacedTargetAccepted` | fastaiagent/client.py:179-193 | `http:// /` is accepted, with a trailing space left in the URL |
| `Target.SpacedFormRefused` | fastaiagent/client.py:179-187 | That normal form is itself refused, for having no scheme |
| `Target.CoreSplits` | fastaiagent/client.py:179 | What the strips leave is a reading of the input as white space, URL, slashes, white space |
| `Target.SplitIsCore` | fastaiagent/client.py:179 | There is only one such reading of the URL |
| `Target.SchemeIsFirst` | fastaiagent/client.py:182-189 | The text before the first "://" is http or https iff the URL begins that way |
| `Client.Proxy.Resolve` | fastaiagent/client.py:131-157 | Reads go to the task's scoped connection if there is one, else to the global one |
| `Client.Proxy.Connect` | fastaiagent/client.py:295-420 | The global connection, the outcome and the requests sent, for every target, server answer and scope; the scoped connection is never written |
| `Client.Proxy.Refresh` | fastaiagent/client.py:643-666 | Asks through the proxy, stores only in the global policy cache, returns the version of the policy the proxy then shows |
| `Client.Proxy.FlushProcessors` | fastaiagent/client.py:569-589 | Flushes the handles the proxy shows and clears those of the global connection only |
| `Client.Proxy.Disconnect` | fastaiagent/client.py:549-615 | Resets the global connection and flushes exactly the processors whose handles the proxy shows |
| `Client.Connection.constructor` | fastaiagent/client.py:50-83 | A new connection has no key, no policy and fail mode "open" |
| `Client.Connection.Configure` | fastaiagent/client.py:302-349 | The fields a connect sets before it asks anything |
| `Client.Connection.Authenticate` | fastaiagent/client.py:349-397 | What each answer to the key check changes, and which raise |
| `Client.Connection.StorePolicy` | fastaiagent/client.py:402-420 | Only an HTTP 200 answer that parses replaces the cached policy |
| `Client.Connection.Register` | fastaiagent/client.py:422-480 | A refused or skipped registration keeps the handle there was |
| `History.KeyIsHistory` | fastaiagent/client.py:302-366 | Connected iff the last connect with a usable target or disconnect was a connect whose key check was not answered 401 or 403 |
| `History.PolicyIsLastWord` | fastaiagent/client.py:402-420 | After any calls from anywhere, the cached policy is the last HTTP 200 policy body that parsed since the last disconnect, else none |
| `History.SettingsAreLastWord` | fastaiagent/client.py:295-339 | Key, project, target, fail mode and posture after any calls are those of the last usable connect, less a key refused with 401 or 403, or the defaults after a disconnect; target and fail mode are read off the argument or environment texts |
| `History.UsableExactly` | fastaiagent/client.py:295-300 | A connect is usable iff its text, without white space and trailing slashes, is not empty and starts with http:// or https:// in any case |
| `History.UnusableByText` | fastaiagent/client.py:293-300 | An unusable connect changes and sends nothing, and ends as a missing target or a bad one by its text |
| `History.ConnectByAnswer` | fastaiagent/client.py:348-397 | Refused, without key and project, after one request iff the key check answered 401 or 403; raising with the key in place iff the answer was lost or no object; otherwise it goes on |
| `History.CheckByAnswer` | fastaiagent/client.py:349-390 | What the connection says of its last check, for each answer |
| `History.ConnectAsksItsTarget` | fastaiagent/client.py:350-406 | Outside scopes the key check and the policy pull go to the new target with the new key |
| `History.ConnectReplacesHandles` | fastaiagent/client.py:422-480 | A connect that goes on replaces the handles of exactly the processors it registered |
| `History.IdentityIsLastWord` | fastaiagent/client.py:363-386 | Domain, project id and scopes are those of the last verified key check, through any unverified reconnects |
| `History.UnusableConnectsDropOut` | fastaiagent/client.py:293-300 | Any history is what it is with every connect without a usable target taken out |
| `History.DisconnectLeavesFresh` | fastaiagent/client.py:569-615 | Disconnect leaves a fresh connection, but for target and check result, iff the proxy shows every handle the global holds |
| `History.ScopedCallsAskTheScope` | fastaiagent/client.py:131-141 | In a scope every request carries the scope's target and key, and the answer lands in the global connection |
| `Governance.PolicyMatches` | fastaiagent/governance.py:88-99 | The loop is true iff some cached policy has a non-empty pattern that matches |
| `Governance.MatchesIsSet` | fastaiagent/governance.py:95-99 | Matching depends on the set of non-empty patterns only |
| `Governance.OnlyThePatternSetCounts` | fastaiagent/governance.py:88-99 | Reordering, repeating or adding pattern-less policies changes no gate's answer |
| `Governance.MorePoliciesGovernMore` | fastaiagent/governance.py:88-99 | Adding policies never ungoverns a call |
| `Governance.GateToolCall` | fastaiagent/governance.py:379-461 | Outcome and plane traffic of the agent's gate for every connection, resume value, verdict and registration result; a pause carries the call's own tool, input and run and the plane's request |
| `Governance.RegisterPause` | fastaiagent/governance.py:425-458 | The pause holds the id iff the registration returned it; the plane opened a run iff the request got there |
| `Governance.PauseTells` | fastaiagent/governance.py:407-458 | The gate pauses iff an enrolled agent's covered call, on a first pass, is answered require_approval; what the pause carries, and the pending run the plane then has |
| `Governance.DenialTells` | fastaiagent/governance.py:424-425 | A denial tells the plane's reason, or "not permitted" where it gave none |
| `Governance.CheckTells` | fastaiagent/governance.py:337-360 | The advisory check tells exactly why it refused by itself, and otherwise the plane's verdict, reason and request |
| `Governance.PushedNameIsItsId` | fastaiagent/governance.py:337 | A pushed agent is answered by name as by its plane id |
| `Governance.CheckDirectCall` | fastaiagent/governance.py:258-293 | The direct gate's outcome; it touches no pending run |
| `Governance.ACheckToolCall` | fastaiagent/governance.py:310-360 | The advisory check's decision; it touches no pending run |
| `Governance.DirectAgreesWithGate` | fastaiagent/governance.py:258-293 | With no resume value the direct gate allows and refuses as the agent's gate does, asks as often, and refuses exactly what that one pauses |
| `Governance.CheckAgreesWithGate` | fastaiagent/governance.py:310-360 | For every agent name, exactly when check and gate agree on a first pass: no policy covers the tool, or the plane fails or denies, or the agent is known and the plane answers allow or require_approval; under the empty name, only where the check is answered allow |
| `Governance.RejectedRunsExactlyWhenUngoverned` | fastaiagent/governance.py:400-413 | A rejected call runs on the resumed pass iff the agent is not enrolled, the connection is gone, or nothing covers the tool any more; an approved one is refused only by the fail-closed test |
| `Governance.FailModesDiffer` | fastaiagent/governance.py:233-255 | For gate and direct gate the fail modes differ iff connected, enrolled and without a policy; there "closed" refuses what "open" allows |
| `Governance.FailModesDifferForCheck` | fastaiagent/governance.py:337-342 | The same for the advisory check |
| `Governance.NoPolicyMeansUngated` | fastaiagent/governance.py:245-255 | Without a key, or without a policy under "open", all three gates allow everything and ask nothing |
| `Governance.DisconnectUngates` | fastaiagent/client.py:598-610 | So after any history, a disconnect, or a connect refused with 401 or 403, ungates everything |
| `Approvals.RunsExactlyWhenAuthorised` | fastaiagent/governance.py:398-461 | In every run a call runs iff some step justified it: ungoverned, or in the unfinished pass of an approving claim, at its gate; a verdict neither deny nor require_approval; or its saved pause claimed directly with an approval |
| `Approvals.AmbientIsTheClaims` | fastaiagent/chain/executor.py:336-342 | A resume value is ambient exactly in the pass of the claim it came with, until that pass ends |
| `Approvals.PausesAreAboutTheirCall` | fastaiagent/governance.py:449-458 | In every reachable state a pause carries the tool, input and run its call met the gate with and the request of the answer it got |
| `Approvals.RowsAreTold` | fastaiagent/agent/executor.py:207-215 | A saved policy pause is that of its call, under the call's run, with the id the pause holds; any other saved pause is of user code |
| `Approvals.ClaimReportsItsPause` | fastaiagent/agent/agent.py:2511-2527 | A connected claim whose insert succeeds records one resolution, an approval naming the pause's pending run or none, or an interrupt naming nothing; any other claim records none |
| `Approvals.RejectedPauseNeverRuns` | fastaiagent/agent/agent.py:2732-2758 | A policy pause resumed directly with a rejection never runs, whatever the connection is by then and whatever follows |
| `Approvals.RejectedPassRefusesWhatIsGoverned` | fastaiagent/governance.py:400-413 | In the pass of a claim every call that meets its gate is refused for good by the fail-closed test, else, if a policy covers it, iff the claim's resume was a rejection; otherwise it runs |
| `Approvals.RefusalStays` | fastaiagent/governance.py:400-461 | A refusal is final |
| `Approvals.EachCallCostsAtMostOnce` | fastaiagent/governance.py:407-442 | Over its whole life a call costs at most one decide, at most one pending run and only after it, and one claim, however many resumers race; a paused one cost exactly one decide |
| `Approvals.NothingTwice` | fastaiagent/agent/agent.py:2492-2501 | No two steps of a run answer the same call's decide, open a pending run for it, or claim its pause |
| `Approvals.ResumedCallCostsNothing` | fastaiagent/governance.py:410-413 | A call that meets its gate under a resume value, in a re-run node or inside a re-entered tool, never costs the plane anything, then or later |
| `Approvals.RunsOpenedNeverExceedVerdicts` | fastaiagent/governance.py:425-442 | Pending runs opened, plus those still on their way, never outnumber require_approval verdicts |
| `Approvals.OpenRunsAreAccountedFor` | fastaiagent/governance.py:63-85 | In every reachable state a pending run is open iff a call in flight has it, a saved pause holds it, a resolution the plane has not processed names it, or it was lost in one of the listed ways |
| `Approvals.SavedPauseKeepsItsRun` | fastaiagent/governance.py:425-458 | A saved pause with an id is its only holder, and the run is still open on the plane |
| `Approvals.ResolutionClosesItsOwn` | fastaiagent/governance.py:68-85 | A policy resolution always carries an id or a null; it closes exactly the run it names, which nothing else claims, or none |
| `Approvals.LedgerCoherent` | fastaiagent/checkpointers/sqlite.py:204-310 | Every pending run is in one place: flights, saved pauses, outbox and plane agree in every reachable state |
| `Approvals.ClaimKeeps` | fastaiagent/agent/agent.py:2492-2529 | The atomic claim moves a run from its saved pause to the resolution, or loses it |
| `Approvals.RegisteredKeeps` | fastaiagent/chain/executor.py:377-385 | Saving the pause moves the run from the call to its row; a row already there loses it |
| `Approvals.DeliverKeeps` | fastaiagent/trace/hitl_export.py:294-327 | Sending, re-sending, abandoning and late delivery of resolutions keep all places in agreement |
| `Approvals.OneCallIsTheGate` | fastaiagent/governance.py:379-461 | The protocol's steps of one call, uninterrupted, have the gate's outcome and its effect on the plane and save its pause |
| `Scopes.Enter` | fastaiagent/runtime.py:50-75 | Entering fails iff the target is refused, changing nothing; else it installs a fresh dictionary with each tool under its name, the last winning, a fresh connection iff key, target or project is given, and holds unused tokens for what it set |
| `Scopes.Leave` | fastaiagent/runtime.py:77-81 | The reversed reset loop uses exactly its own tokens and, as `Enter` hands them out unused, never raises |
| `Scopes.EnterFor` | fastaiagent/runtime.py:52-62 | After entry the proxy resolves to a new connection with the arguments over the global one, which is never the global object, or to what it resolved to before |
| `Scopes.Nest` | fastaiagent/runtime.py:50-81 | Scopes nested to any depth around a body that returns or raises, bad targets included: all entered are left, no token is left over, and the variables and the proxy are as before |
| `Scopes.BuildConnection` | fastaiagent/runtime.py:55-61 | The scope's connection has each argument given, the global connection's value at entry for each omitted, never the enclosing scope's, and nothing else of it |
| `Scopes.EnterableExactly` | fastaiagent/runtime.py:58-60 | A scope is refused iff its target, without white space and trailing slashes, is not empty and does not start with http:// or https:// |
| `Scopes.TokensHoldEntryValues` | fastaiagent/runtime.py:62-75 | No variable is set twice, so every token holds its variable's value at entry |
| `Scopes.LeavingRestores` | fastaiagent/runtime.py:77-81 | Leaving restores every variable the scope set, whatever the body did to it, and touches no other |
| `Scopes.ResetOrderIsFree` | fastaiagent/runtime.py:80-81 | Any listing of the same tokens, reset first to last, does what the reversed loop does |
| `Schedules.ContextsRefineFrames` | fastaiagent/client.py:116-157 | Under every interleaving, contexts and tokens behave as one stack of frames per task over the global connection and the same heap; every read sees the innermost frame with an answer, then what the task inherited |
| `Schedules.LeftScopesRestoreContext` | fastaiagent/runtime.py:77-81 | A task that has left all its scopes has its five variables as at the start, whatever ran in between |
| `Schedules.ScopesHaveTheirOwnDict` | fastaiagent/runtime.py:64-67 | No two open scopes, inner or outer, of one task or of two, share a tool dictionary, and none has one that existed before |
| `Schedules.NextDictIsNew` | fastaiagent/runtime.py:66-67 | The dictionary a scope makes is one that nothing held |
| `Schedules.EnteringSets` | fastaiagent/runtime.py:52-75 | What a task reads after entering, variable by variable: the argument it gave, over the global connection; a new dictionary of its tools; or what it read before |
| `Schedules.RegisteredToolIsFound` | fastaiagent/tool/registry.py:33-62 | Who finds a tool after it is registered: tasks holding the same dictionary, or, from outside all scopes, every task whose own dictionary has none of that name |
| `Schedules.RefreshThroughScope` | fastaiagent/client.py:650-660 | A refresh depends on the key its task's context shows and stores into the global connection |
| `Schedules.SpawnedSeesItsParent` | fastaiagent/_internal/scope.py:11-15 | A task starts with all its parent's context held, and no scope of its own to leave |
| `Schedules.ContextReadsAreIndependent` | fastaiagent/runtime.py:30-81 | With no outside connect, disconnect or refresh, a family of tasks has the same contexts, scopes, connection, project and flag reads as with all others taken out, from any state and whatever anyone registers |
| `Schedules.ToolReadsAreIndependent` | fastaiagent/tool/registry.py:33-62 | If outsiders also register nothing where the family could look, its tasks are the same in full, tool reads included |
| `Schedules.ScheduleIndependence` | fastaiagent/runtime.py:30-81 | Both at once and name by name: for any set of tool names that outsiders do not register where the family could look, every read but those of other tools is as alone |
| `Schedules.InheritedDictLeaks` | fastaiagent/tool/registry.py:41-48 | The condition is needed: a tool registered into a dictionary that two tasks hold is what the other one reads |
| `Schedules.ConnectionScopesAreUngated` | fastaiagent/governance.py:88-99 | While any open scope of a task has set the connection, every gate allows everything, whatever any task does meanwhile |
| `Schedules.InheritedConnectionsAreUngated` | fastaiagent/_internal/scope.py:11-15 | So does every task started inside one, at any remove and after the scope is left |
| `Schedules.ScopeIsStable` | fastaiagent/runtime.py:52-75 | What its task read on entering it reads for as long as it stays, whenever no scope open above sets the same, inner scopes left again included |
| `Schedules.ScopeKeepsItsConnection` | fastaiagent/runtime.py:52-62 | So no connect, refresh or disconnect by any task changes any gate's outcome inside a connection-overriding scope |
| `Licences.CopyleftExactly` | scripts/check_licences.py:40 | The copyleft pattern finds something iff the text has AFFERO, or a GPL at the start of a word of capitals or one A past it |
| `Licences.CopyleftSearch` | scripts/check_licences.py:40 | The pattern's optional letter and lookbehind amount to AFFERO, GPL or AGPL at a place |
| `Licences.AfferoSearch` | scripts/check_licences.py:41 | The same for the Affero pattern |
| `Licences.AfferoIsCopyleft` | scripts/check_licences.py:40-41 | Every Affero match is a copyleft match |
| `Licences.LesserIsNotCopyleft` | scripts/check_licences.py:38-40 | Text whose every GPL sits inside LGPL is never a match |
| `Licences.PieceSpans` | scripts/check_licences.py:40-41 | A piece that no capital precedes is matched inside a text as it is alone, lookbehind included |
| `Licences.SearchSplits` | scripts/check_licences.py:69 | A separator neither creates a match nor hides one, for any pattern that cannot match a separator or nothing |
| `Licences.BlobSearch` | scripts/check_licences.py:49-70 | Searching the upper-cased joined blob succeeds iff one field, or one classifier starting with "License", alone matches |
| `Licences.EvidenceShowsIt` | scripts/check_licences.py:72 | The printed evidence matches iff a declaration does |
| `Licences.EvidenceQuotes` | scripts/check_licences.py:72 | And it quotes every declaration in full |
| `Licences.Scan` | scripts/check_licences.py:60-75 | The two lists hold exactly the distributions that belong on them, once each and in order, each with its name or the placeholder, its version and its evidence |
| `Licences.ListingIsUnique` | scripts/check_licences.py:62-75 | That determines each list: membership, multiplicity and order |
| `Licences.ListsPartition` | scripts/check_licences.py:60-75 | The lists are disjoint and together are the non-allowed distributions with a copyleft declaration; all the Affero ones are on the first |
| `Licences.ExitStatus` | scripts/check_licences.py:78-113 | The exit status is 1 iff some distribution that is not allowed declares a copyleft licence |
| `Licences.UnabbreviatedPasses` | scripts/check_licences.py:40-75 | If no declaration has a G before a P or an A before an F, the gate passes, whatever is installed |
| `Licences.FullNameIsNotSeen` | scripts/check_licences.py:40-75 | So distributions that declare only the licence's full name, in any letter case, pass |

## Left out

- `Approvals.ResolutionClosesItsOwn`: pauses saved before 1.76.0, whose context has no pending id and which the plane matches by position within the run.
- `Approvals.RunsExactlyWhenAuthorised`: an authorised call may still be stopped by middleware or guardrails; those are not part of this model.
- `Approvals.RejectedPassRefusesWhatIsGoverned`: speaks of calls that meet their gate in the pass; which calls are made is arbitrary.
- `Approvals.EachCallCostsAtMostOnce`: counts calls that reach a gate; two re-runs of a node are two calls, and crash recovery starts a new one.
- `Schedules.ScheduleIndependence`: threads without a copied context are not modelled.
- `Scopes.Enter`: tools are well-formed; an iterable that raises after the connection variable is set is not modelled.
- `Client.Connection.Configure`: fields always written together are grouped in one (identity, posture, processor handles); `str.lower` maps ASCII letters only.
- `Licences.BlobSearch`: `str.upper` is an arbitrary table that keeps space and semicolon.
- User code that calls `interrupt()` with the policy's own reason, and a claim that finds a row but no interrupted checkpoint.
- JSON answers of the wrong shape where an object is expected (a list as policy, a number as verdict); guardrail rules and the plane-guardrail cache.
- The wording of refusals, logging, `repr`, request headers and timeouts: refusals are constructors.
- `enroll`, `push`, auto-registration, egress-posture logging and tracer-provider suppression: best-effort steps around the modelled ones.
- Exporter threads, retry backoff and the checkpoint outbox: resolutions are sent in any order, any number of times, even after being given up.
- Restore from the plane, crash recovery, cancellation, Swarm and Supervisor nesting.
- Replay's own use of the scoped tools, the optimizer and memory: not part of the governed-call layer.
- `ToolRegistry.all`, `clear` and `unregister`, `--list` output, and the sync wrapper `check_tool_call`: they would add only easy members.
