# A verified model of the ARGOS tool gateway

This project models, in Dafny, the path on which an ARGOS tool call is authorised, approved, executed and
rolled back, and the analyses kept beside it, and proves properties of every run of that model.

| module | what it models |
|---|---|
| `Ordering`, `Sequences`, `Options` | Python's string order, `sorted`, comprehensions, `setdefault` order, `None` |
| `Json` | the canonical JSON text that is hashed, and a reader for it |
| `PythonEquality` | for which values equal texts are equal values in Python |
| `PlanHash` | plan hashes, signature references, payload hashes |
| `RateLimiting` | the sliding-window limiter |
| `Approvals` | approval checks, the in-memory store, the durable store |
| `StoreProtocol` | many clients on the durable store, step by step, with crashes and storage errors |
| `Gateways` | the safety chain and `Gateway.authorize` |
| `GatewayRuns` | whole runs of one gateway |
| `Devices`, `Executors` | executors, idempotency stores and rollbacks over their shared states |
| `ResultHashes` | the payload hash of action results |
| `Execution` | `execute_with_authorization`, each tool name wired to its own executor |
| `Deployment` | many gateways over one table and one world, interleaved, with crashes and restarts |
| `Replies` | what the calls of such a deployment are answered |
| `Effects`, `Throughput` | counting over such runs: state changes against keys and approvals, invocations against the rate limit |
| `Graphs`, `BlastRadius`, `Escalation` | the RBAC and network graph and its two analyses |
| `FromManifests` | the graph, the assessment and the findings stated on the manifests themselves |
| `VersionLedger` | the high-water mark of tool versions |

Conventions.

- Times are integers in microseconds. A timestamp field may be absent, not text, unreadable, naive or aware.
- What the source computes with a library or takes from outside is a parameter: the digest, the minted
  credential, the fresh message id, the current time, whether a result passes its schema, and whether the
  database answers, fails before committing or fails after committing.
- A digest of fixed length over unbounded texts always has collisions, so none is assumed away: the binding
  theorems conclude "the same plan, or these two named texts collide".
- Where the source updates an object in place the model has a class whose methods are proved equal to a
  function of the old state; runs, interleavings and permutations are then proved about that function.

Where the code differs from its own documentation the code is followed:

- `RateLimiter.check_and_record` says every attempt counts, but a throttled attempt is not recorded, and
  attempts on tools denied in P0 never reach the limiter.
- The hash pattern ends in `$` and is used with `match`, so one trailing newline is accepted and nothing else
  beside the documented form: `Gateways.HashRefIff`, `Gateways.TrailingNewlinePasses`.
- A rollback says it only reports real changes. It does not in two cases: for a target whose original value is
  already the forced one (zero replicas, level `verbose`), `Executors.ZeroReplicasMisreported`; and for a key used
  before, whose old report is returned while the target stays as it is, `Executors.RepeatedRollbackMisreported`.
  `Devices.RollbackEvidence` shows that there is no third. Forward calls misreport in the same two ways, on a
  target already at its forced value and on an answered key: `Devices.ForwardEvidence`.
- A result marked as rolled back keeps the payload hash of the original: `ResultHashes.MarkedHashIsStale`.
- Affected subjects are described as sharing a role, but a report rests on the reference's kind and name only
  (`BlastRadius.ReportedIff`). `BlastRadius.ShareRoleIff` says when a role is shared; two families of manifests
  where it is not are in `BlastRadius.SharedNameIsReportedToo`.
- The ledger stores the first version of a new tool unread: `VersionLedger.MarksParseIff`,
  `VersionLedger.UnreadVersionIsStored`. The catalog's schema lets some such versions through:
  `VersionLedger.NewlineVersionIsUnread`.
- An approval is spent before the minted credential is compared with the caller's token, and a commit whose
  answer is lost has spent it too: `GatewayRuns.TokenCollisionLosesApproval`,
  `GatewayRuns.CommitFailureLosesApproval`. `GatewayRuns.RunSpendsWhatItAllows` shows that spent ids and allowed
  executions agree exactly when neither happens to a call that is otherwise fit to be allowed.
- Equal texts are finer than Python's `==`, which identifies `True` with `1`: `PythonEquality.TextIsPythonEqualityIff`.

## Model

| member | source | states |
|---|---|---|
| Json.ReadEscapeChar | policies/approval/__init__.py:53-57 | each escaped character, surrogate pairs included, reads back to the character whatever follows it |
| Json.ReadOfEmit | policies/approval/__init__.py:53-57 | a reader of JSON gets back the value and the untouched rest of the text, at any nesting |
| Json.DumpsRoundTrip | policies/approval/__init__.py:53-57 | the canonical text decodes to the value with its keys sorted |
| Json.DumpsInjective | policies/approval/__init__.py:53-57 | two values have one text exactly when they differ in nothing but the insertion order of dicts; a boolean and a number are different |
| Json.DumpsIsAscii | policies/approval/__init__.py:58 | the hashed text is ASCII, so encoding it is the identity |
| Json.PrintableIsItself | policies/approval/__init__.py:53-57 | printable ASCII other than quote and backslash is written as itself |
| Json.ShortEscapes | policies/approval/__init__.py:53-57 | the seven short escapes |
| Json.UnicodeEscape | policies/approval/__init__.py:53-57 | any other character of the basic plane is `\u` and its four lower-case digits |
| Json.PairEscape | policies/approval/__init__.py:53-57 | a character beyond it is its surrogate pair, so written |
| Json.DumpsReads | policies/approval/__init__.py:53-57 | the text of a value from the texts of its parts: compact, items in order, members in key order |
| Json.DigitsLead | policies/approval/__init__.py:53-57 | numbers have no leading zero |
| Ordering.FirstDifference | policies/approval/__init__.py:55 | keys are ordered by their first differing code point, a prefix first |
| PythonEquality.TextIsPythonEqualityIff | policies/approval/__init__.py:53-57 | a value shares its text with exactly the values Python calls equal to it if and only if it holds no boolean, no 0 and no 1 |
| PythonEquality.StringPlansInPython | policies/approval/__init__.py:52-58 | plans whose parameters are strings share a text exactly when Python calls their arguments equal |
| PlanHash.PlanTextReadsBack | policies/approval/__init__.py:52-58 | tool, target, action and params are all recovered from the hashed text |
| PlanHash.PlanTextReads | policies/approval/__init__.py:52-58 | the hashed text of a plan, spelled out |
| PlanHash.PlanTextInjective | policies/approval/__init__.py:52-58 | plans share a text exactly when tool, target, action and, up to insertion order, params are the same |
| PlanHash.PlanHashBinds | policies/approval/__init__.py:52-58 | equal plan hashes mean equal plans or a collision of the two texts |
| PlanHash.PayloadHashBinds | executors/__init__.py:76-78 | equal payload hashes mean equal payloads or a collision of the two texts |
| PlanHash.SignatureTextUnambiguous | policies/approval/__init__.py:61-62 | with plan hashes of one length, the joined text determines id and hash |
| PlanHash.SignatureTextAmbiguousInGeneral | policies/approval/__init__.py:61-62 | without that length two different pairs have one text |
| PlanHash.SignatureBindsPlan | policies/approval/__init__.py:61-62 | one signature reference fits one id and one plan, or names a collision |
| RateLimiting.RateLimiter.CheckAndRecord | mcp_gateway/__init__.py:112-124 | answers and rewrites the history as specified |
| RateLimiting.CheckReads | mcp_gateway/__init__.py:117-124 | what a check leaves of every history, time by time |
| RateLimiting.AdmittedIffUnderLimit | mcp_gateway/__init__.py:117-124 | the pruned history admits exactly when fewer than the limit of earlier admissions lie in the last 60 000 000 microseconds |
| RateLimiting.AdmissionsBounded | mcp_gateway/__init__.py:112-124 | any k minutes hold at most k times the limit, for every start and k |
| RateLimiting.ThrottledAttemptsLeaveNoTrace | mcp_gateway/__init__.py:119-121 | deleting any throttled attempts changes no other answer |
| Approvals.AcceptedIffFieldsValid | policies/approval/__init__.py:69-101 | the ordered checks accept exactly an approved, unexpired, segregated, correctly signed approval |
| Approvals.AnswerIsFirst | policies/approval/__init__.py:69-101 | each answer names the first check that fails, in the source's order, and a yes passes them all |
| Approvals.FaultsAreTrue | policies/approval/__init__.py:79-95 | each exception names a field that is missing or unreadable |
| Approvals.ApprovalStore.ValidateAndConsume | policies/approval/__init__.py:117-135 | verdict and consumed set as specified: nothing consumed unless accepted |
| Approvals.ConsumedApprovals.Insert | policies/approval/durable_store.py:76-84 | the atomic insert: a row is added, conflicts, or the database fails with or without it |
| Approvals.DurableApprovalStore.ValidateAndConsume | policies/approval/durable_store.py:63-84 | verdict and table as specified, storage errors refused |
| Approvals.StoresAgree | policies/approval/durable_store.py:72-84 | over any run without storage errors both stores accept the same calls and consume the same ids |
| Approvals.StoresDifferOnlyOnReplay | policies/approval/__init__.py:126-132 | their answers differ exactly on a spent id whose other fields are not valid |
| Approvals.StoreAnswers | policies/approval/durable_store.py:72-84 | when each store answers replay or unavailable; otherwise what the field checks answer |
| StoreProtocol.StepKeepsSafe | policies/approval/durable_store.py:72-84 | every step of every client keeps at most one success per id |
| StoreProtocol.AtMostOneSuccess | policies/approval/durable_store.py:72-84 | over every interleaving with crashes, restarts and storage errors no id is reported consumed twice, and no two clients are told yes for one id |
| StoreProtocol.ExactlyOneSuccess | policies/approval/durable_store.py:72-84 | clients holding one valid unused approval: when all have heard back, exactly one succeeded and the rest were told replay |
| StoreProtocol.UninterruptedClientIsTheStore | policies/approval/durable_store.py:63-84 | the store's method is one uninterrupted client |
| StoreProtocol.FailingClientIsTheStore | policies/approval/durable_store.py:81-84 | and on a failing database one client whose insert fails, before or after the commit |
| Gateways.SafeIffSafetyValid | mcp_gateway/__init__.py:257-306 | the safety chain passes exactly on a live envelope bound to this tool, target and action with a VERIFIED result for it |
| Gateways.SafetyAnswerIsFirst | mcp_gateway/__init__.py:257-306 | each answer of the chain names the first check that fails, in the source's order; a naive expiry raises |
| Gateways.HashRefIff | mcp_gateway/__init__.py:90 | the pattern accepts the documented references, and those followed by one newline, and nothing else |
| Gateways.TrailingNewlinePasses | mcp_gateway/__init__.py:270-272 | evidence under a hash with a trailing newline is judged as the same evidence under the hash |
| Gateways.Gateway.Authorize | mcp_gateway/__init__.py:168-254 | outcome, limiter and store as the ordered decision specifies |
| Gateways.AllowedIff | mcp_gateway/__init__.py:168-254 | the exact condition for a yes, independent of the order of checks |
| Gateways.AllowedIsMinted | mcp_gateway/__init__.py:249-254 | an allowed call returns the minted credential, never the caller's token |
| Gateways.OutOfP0Iff | mcp_gateway/__init__.py:176-179 | exactly irreversible and destructive tools are refused unconditionally, and nothing is recorded |
| Gateways.PermittedReads | mcp_gateway/__init__.py:187-247 | what a permitted request is, in the literal names of runbook, states, executor and hashes |
| Gateways.OutcomeIsFirst | mcp_gateway/__init__.py:168-254 | every denial or exception is the first failing check of the source's order, with the chain's or the store's own answer |
| Gateways.RefusalsAreTrue | mcp_gateway/__init__.py:172-252 | every denial names a condition that fails, every exception a real lack |
| Gateways.ConsumeMeans | mcp_gateway/__init__.py:238-247 | a store takes exactly valid calls with an unspent id on an answering disk; what is spent afterwards in every case |
| Gateways.ApprovalBindsPlan | mcp_gateway/__init__.py:225-247 | an approval made for one plan is accepted only for that tool, target, action and envelope hash, or names a collision |
| Gateways.HighRiskNeedsApproval | tool_catalog/schemas/tool-definition.schema.json:69-79 | an executed high or critical tool spent an unspent approval and stayed in its allowlist |
| GatewayRuns.ThroughputBounded | mcp_gateway/__init__.py:181-185 | a fresh gateway lets at most k times a tool's limit through in any k minutes |
| GatewayRuns.DecisionSpends | mcp_gateway/__init__.py:203-254 | one decision spends the id of the execution it allows, or of the approval it loses, and nothing else |
| GatewayRuns.RunSpends | mcp_gateway/__init__.py:203-254 | over any run the ids spent are those used and those lost, disjoint, none twice |
| GatewayRuns.RunSpendsWhatItAllows | mcp_gateway/__init__.py:203-254 | over a run the spent ids grow by exactly the ids of the allowed executions that needed an approval, each once, if and only if no decision loses an approval |
| GatewayRuns.TokenCollisionLosesApproval | mcp_gateway/__init__.py:238-252 | a credential equal to the token spends the approval of a call otherwise allowed, and raises |
| GatewayRuns.CommitFailureLosesApproval | policies/approval/durable_store.py:72-84 | a database error after the commit spends the approval of a call otherwise allowed, and denies |
| GatewayRuns.OneSignatureOnePlan | mcp_gateway/__init__.py:225-247 | two executions allowed on one signature, in any states, are of one plan, or name a collision |
| Devices.RetriesLeaveNoTrace | executors/kubernetes.py:48-82 | calls whose results validate end in the state and store of the first call of each key alone, and every call gets the reply stored for its key |
| Devices.AnsweredCallsLeaveNoTrace | executors/kubernetes.py:48-51 | valid or not, calls the store answers leave no trace |
| Devices.SameKeySameReply | executors/__init__.py:107-111 | a key gets one answer, always the same |
| Devices.EffectsCostKeys | executors/__init__.py:107-111 | effects on the state number at most the keys newly used |
| Devices.LastOperationDecides | rollback/strategies.py:74-124 | originals never change and a target's value is fixed by the last effective operation on it |
| Devices.RestoredIff | rollback/strategies.py:24-173 | from an untouched start, exactly when a target looks untouched again |
| Devices.RollbackRestores | rollback/strategies.py:24-173 | rolling back every forwarded target restores the whole observed start |
| Devices.RollbackEvidence | rollback/strategies.py:24-173 | exactly when the report of a rollback that returns a result is true |
| Devices.ForwardEvidence | executors/scale_to_zero.py:47-81 | exactly when the report of a forward call that returns a result is true; unanswered, it is empty exactly for a dry run |
| Devices.RollbackRefIdentifies | rollback/strategies.py:176-196 | the marked copy refers to exactly one stored result, the rollback's, and differs from the original in status and reference only |
| ResultHashes.PayloadReads | executors/kubernetes.py:60-72 | the payload that is hashed, key by key |
| ResultHashes.ResultHashBinds | executors/__init__.py:76-91 | one payload hash fits one payload, field by field, or names a collision |
| ResultHashes.StoredHashesHold | executors/__init__.py:81-91 | every result ever returned or stored carries the hash of its own payload |
| ResultHashes.MarkedHashIsStale | rollback/strategies.py:176-196 | the marked copy keeps the original's hash, which no longer fits its payload, or names a collision |
| Executors.AllLawful | executors/increase_monitoring.py:40-49 | the three states obey the laws the theorems of `Devices` rest on |
| Executors.FakeClusterState.ApplyIsolation | executors/kubernetes.py:29-32 | isolates the target under the policy named after its last segment |
| Executors.FakeClusterState.RemoveIsolation | executors/kubernetes.py:34-35 | forgets the target and nothing else |
| Executors.FakeReplicaState.ScaleToZero | executors/scale_to_zero.py:28-31 | keeps the original, sets the current count to zero |
| Executors.FakeMonitoringState.IncreaseMonitoring | executors/increase_monitoring.py:40-43 | keeps the original, sets the current level to verbose |
| Executors.IdempotencyStore.Remember | executors/__init__.py:110-111 | stores one result under its key |
| Executors.KubernetesExecutor.IsolateWorkload | executors/kubernetes.py:48-82 | state, store and reply of one call: cached, dry, invalid or applied |
| Executors.ScaleToZeroExecutor.ScaleToZero | executors/scale_to_zero.py:47-81 | the same for scaling |
| Executors.IncreaseMonitoringExecutor.IncreaseMonitoring | executors/increase_monitoring.py:59-93 | the same for monitoring |
| Executors.RollbackIsolation | rollback/strategies.py:24-71 | state, store and reply of a rollback, with a shared store or one of its own |
| Executors.RollbackScaleToZero | rollback/strategies.py:74-124 | the same for scaling |
| Executors.RollbackIncreaseMonitoring | rollback/strategies.py:127-173 | the same for monitoring |
| Executors.ZeroReplicasMisreported | rollback/strategies.py:103-109 | a target with zero original replicas: a change reported, none made |
| Executors.RepeatedRollbackMisreported | rollback/strategies.py:84-87 | a rollback repeated with its key after a second scale-down: its old change reported, none made, the target still at zero |
| Executors.LastSegmentIs | executors/kubernetes.py:30 | a policy is named after the text behind the last slash |
| Executors.IsolationRolledBack | rollback/strategies.py:38-61 | the result of the rollback, field by field |
| Executors.ScalingRolledBack | rollback/strategies.py:89-115 | the same for scaling |
| Executors.MonitoringRolledBack | rollback/strategies.py:142-164 | the same for monitoring |
| Execution.Wiring.CallExecutor | mcp_gateway/controlled_execution.py:58-64 | the wired executor runs, dry unless the action is execute |
| Execution.RunExecutorIsLocal | mcp_gateway/controlled_execution.py:58-64 | an executor call changes what is seen only of its own tool and target, and only for execute |
| Execution.ExecuteTakesEffect | executors/scale_to_zero.py:47-56 | an execute with an unanswered key leaves the target in the tool's forced state; with an answered key nothing changes |
| Execution.UntouchedIsSeen | executors/scale_to_zero.py:33-37 | a target nobody touched: not isolated, one replica, level normal |
| Execution.ExecutorReplies | executors/kubernetes.py:48-82 | an answered key gets its stored result; a new one this call's own result, field by field, now stored, or an error if invalid; other tools answer nothing |
| Execution.PerformMeans | mcp_gateway/controlled_execution.py:54-65 | a refusal touches nothing; an executed call was allowed, carries the minted credential and answers as its executor does |
| Execution.ExecuteWithAuthorization | mcp_gateway/controlled_execution.py:36-65 | gateway, world and outcome: no executor effect without a yes |
| Deployment.StepKeeps | mcp_gateway/controlled_execution.py:54-65 | every step, crash or restart of every gateway keeps the invariant of jobs, table and log |
| Deployment.AtMostOneInvocationPerApproval | mcp_gateway/controlled_execution.py:54-65 | over every run with any number of gateways an approval backs at most one invocation, and every invocation was permitted at its own time |
| Deployment.ApprovalsConserved | mcp_gateway/__init__.py:203-254 | the table grows by one row per call that spent an approval; invocations that needed one are among them |
| Deployment.SpendsExactlyIff | mcp_gateway/__init__.py:203-254 | the rows added are exactly those invocations if and only if no approval is stranded, and how one can be |
| Deployment.UndisturbedRunsSpendExactly | mcp_gateway/__init__.py:203-254 | when no call was disturbed the rows added are exactly those invocations |
| Effects.CallCostsKey | executors/kubernetes.py:48-82 | a change to a tool's state takes an execute with a new key, which is then answered exactly if the result is valid |
| Effects.ChangesCostKeys | executors/__init__.py:107-111 | over every run with valid results and no forgetting crash, changes to a tool's state number at most the keys newly answered, all used by its invocations |
| Effects.ChangesCostApprovals | mcp_gateway/controlled_execution.py:54-65 | over every run, changes to the states of tools that need approval number at most the approvals consumed |
| Throughput.InvocationsBounded | mcp_gateway/controlled_execution.py:54-65 | a gateway that does not crash, its clock not going back, invokes a tool's executor at most k times the limit in any k minutes, whatever other gateways do |
| Deployment.TableIsTrueRecord | policies/approval/durable_store.py:76-80 | rows never change and record the time and plan hash of the call that spent them |
| Deployment.ChangesAreAuthorized | mcp_gateway/controlled_execution.py:54-65 | a target that looks different was the target of a permitted execute, inside the allowlist |
| Deployment.UninterruptedCallIsPerform | mcp_gateway/controlled_execution.py:36-65 | the step system and `execute_with_authorization` agree on an uninterrupted call |
| Deployment.CrashLoses | mcp_gateway/__init__.py:109 | a crash ends the gateway's calls in flight and empties its limiter, nothing else |
| Replies.CredentialsAreMinted | mcp_gateway/__init__.py:249-254 | in every reachable state every granted or executed call holds its minted credential, never the caller's token |
| Replies.AnswersAreGenuine | mcp_gateway/controlled_execution.py:58-65 | in every reachable state every invocation was answered with a result made by an invocation of its tool and key, or stored at the start, or was told its own is invalid |
| Replies.OneKeyOneAnswer | executors/__init__.py:107-111 | through whichever gateways, one tool and key get one result |
| Graphs.ClusterGraph.Handle | graph/model.py:133-218 | one manifest's effect on the graph, or its problem |
| Graphs.LabelsIgnoreOrder | graph/model.py:175-187 | selectors do not depend on the order of their labels |
| Graphs.ClusterGraph.EffectiveRules | graph/model.py:106-119 | the rules of every binding of the subject, in binding order |
| Graphs.BuildGraph | graph/model.py:232-242 | the graph of all manifests, or the first problem |
| Graphs.BuildHolds | graph/model.py:133-242 | building succeeds exactly when each manifest is valid alone, and then lists are the manifests' in order and each role and service is as its last manifest says |
| BlastRadius.AffectedSubjects | graph/blast_radius.py:75-84 | the sorted labels of every other subject reached through a shared reference |
| BlastRadius.AffectedServicesExact | graph/blast_radius.py:60-68 | the services listed, in order, are exactly the other ones of a namespace without default deny |
| BlastRadius.AffectedSubjectsExact | graph/blast_radius.py:75-84 | the labels listed, in order and once each, are exactly those of the subjects reached |
| BlastRadius.EvidenceExact | graph/blast_radius.py:46-57 | the evidence is, sorted, one reference per policy of the namespace, then, sorted, one per binding of the subject |
| BlastRadius.AssessmentIgnoresOrder | graph/blast_radius.py:87-117 | any permutation of valid manifests gives the same assessment, field by field |
| BlastRadius.RecommendationMonotone | graph/blast_radius.py:94-105 | a further manifest never lowers the recommendation; a NetworkPolicy never raises it |
| BlastRadius.GoIff | graph/blast_radius.py:60-99 | the exact condition for GO |
| BlastRadius.Bands | graph/blast_radius.py:94-105 | GO for nothing affected, NARROW for one or two resources, STOP for more, with the total quoted |
| BlastRadius.AssessFields | graph/blast_radius.py:107-117 | which list goes into which field |
| BlastRadius.ReachedIsSymmetric | graph/blast_radius.py:75-84 | being reached through a shared reference is symmetric |
| BlastRadius.SharedRoleIsReported | graph/blast_radius.py:75-84 | subjects that get rules through one resolved role appear in each other's report |
| BlastRadius.RolesStayInTheirNamespace | graph/model.py:106-119 | a subject has exactly the rules its bindings grant, a Role's only through a RoleBinding of the Role's namespace |
| BlastRadius.ReportedIff | graph/blast_radius.py:75-84 | a label is reported exactly for another subject with a reference of the same kind and name |
| BlastRadius.ShareRoleIff | graph/model.py:106-119 | subjects share a role exactly when such references also lie in one namespace, if to a Role, and name a role that exists |
| BlastRadius.SharedNameIsReportedToo | graph/blast_radius.py:76-83 | two families of manifests whose reports name a subject that shares no role: one name in two namespaces, and a role that does not exist |
| Escalation.MatchesMeans | graph/escalation.py:57-62 | a rule matches when it hits a resource and a verb of the pattern, or has the wildcard |
| Escalation.FindPrivilegeEscalations | graph/escalation.py:69-96 | the loops with their break compute the findings, per subject and rule occurrence, in order |
| Escalation.RuleFindingsExact | graph/escalation.py:78-95 | one critical finding for a total rule, else one high finding per pattern hit |
| Escalation.TotalHitsEverything | graph/escalation.py:90-95 | what the break drops is implied |
| Escalation.FindingsMembers | graph/escalation.py:75-96 | a finding exists exactly for a bound subject, one of its rules and a hit |
| Escalation.RuleFindingReads | graph/escalation.py:24-45 | what a rule is reported for, in the names of resources and verbs, and how severe |
| Escalation.FindingsRead | graph/escalation.py:69-96 | the findings of a graph in those names |
| Escalation.FindingsPersist | graph/escalation.py:69-96 | manifests that redefine no role never unflag anyone |
| Escalation.FindingsIgnoreOrder | graph/escalation.py:69-96 | if no two manifests disagree on a role, permuting manifests permutes the findings |
| FromManifests.ProblemReads | graph/model.py:122-172 | which manifests are valid, kind by kind and field by field, and which error the others give |
| FromManifests.DefaultDenyIff | graph/model.py:203-218 | a namespace is closed exactly when some NetworkPolicy of it lists a direction and has no rules for it |
| FromManifests.GoFromManifests | graph/blast_radius.py:60-99 | GO, as a condition on the manifests |
| FromManifests.ServicesFromManifests | graph/blast_radius.py:60-68 | the services listed, from the manifests |
| FromManifests.LabelReads | graph/blast_radius.py:71-72 | how a subject with and without a namespace is named |
| FromManifests.SubjectsFromManifests | graph/blast_radius.py:75-84 | the subjects listed, from the manifests |
| FromManifests.EvidenceFromManifests | graph/blast_radius.py:46-57 | the evidence cited, from the manifests |
| FromManifests.RulesFromManifests | graph/model.py:106-119 | a subject has exactly the rules of the roles its bindings refer to, each as its last manifest says, a Role's only within its namespace |
| FromManifests.FindingsFromManifests | graph/escalation.py:69-96 | the findings, as a condition on the manifests |
| FromManifests.ServiceReads | graph/model.py:175-187 | what is kept of a service |
| FromManifests.IngressesFromManifests | graph/model.py:190-200 | an ingress for exactly each path that names a service |
| VersionLedger.VersionReadsBack | tool_catalog/version_ledger.py:37-42 | MAJOR.MINOR.PATCH in decimal reads back as its three numbers, of any size |
| VersionLedger.VersionTupleIff | tool_catalog/version_ledger.py:37-42 | exactly the texts of three numbers with two dots parse, to those numbers |
| VersionLedger.OneIsLater | tool_catalog/version_ledger.py:78-81 | of two versions exactly one is later, at the first of MAJOR, MINOR, PATCH where they differ, or they are the same |
| VersionLedger.CheckOrders | tool_catalog/version_ledger.py:78-82 | a later version raises the mark, an earlier one is reported and leaves it, the same does neither |
| VersionLedger.NewToolIsStored | tool_catalog/version_ledger.py:74-77 | a tool without a mark gets the catalog's version and is not reported |
| VersionLedger.OneToolCheck | tool_catalog/version_ledger.py:66-83 | the whole result for a catalog of one tool, in numbers |
| VersionLedger.CheckForDowngrades | tool_catalog/version_ledger.py:66-83 | the loop computes downgrades and marks, or meets an unreadable version |
| VersionLedger.CheckMeans | tool_catalog/version_ledger.py:73-83 | each mark is raised to the catalog's version; reported are exactly the tools below their mark, with version and mark |
| VersionLedger.CheckedIff | tool_catalog/version_ledger.py:37-42 | the check raises exactly when a marked tool has a version that does not parse |
| VersionLedger.RejectedIff | tool_catalog/version_ledger.py:78-80 | a readable catalog is rejected exactly when some tool is below its mark |
| VersionLedger.CheckIgnoresOrder | tool_catalog/version_ledger.py:73-83 | the catalog's order changes neither marks nor verdict |
| VersionLedger.LedgerIsHighWater | tool_catalog/version_ledger.py:104-114 | after any runs each mark is the highest version of the clean catalogs, and no tool is forgotten |
| VersionLedger.MarkIsLatest | tool_catalog/version_ledger.py:104-114 | in numbers: a mark is the version of some clean catalog and no clean catalog has a later one |
| VersionLedger.DowngradesAreRefused | tool_catalog/version_ledger.py:102-114 | a catalog is refused exactly when it goes below a version that was once clean, however long absent |
| VersionLedger.MarksParseIff | tool_catalog/version_ledger.py:73-77 | after a clean check every mark parses exactly when every old one did and every new tool's version does |
| VersionLedger.UnreadVersionIsStored | tool_catalog/version_ledger.py:74-77 | a malformed first version passes a clean check, stays through all later runs, and every catalog that has the tool raises |
| VersionLedger.NewlineVersionIsUnread | tool_catalog/schemas/tool-definition.schema.json:28-31 | a version followed by a newline, which the schema's pattern lets through, does not parse |

## Left out

- Executors.KubernetesExecutor.IsolateWorkload: as in the other executors and rollbacks, whether the result passes its schema is a flag, since the schema lies in another repository; clock texts and the fresh id are arguments.
- VersionLedger.CheckForDowngrades: reports the three parts of each message, not its wording; digits are ASCII, where `isdigit` also takes other scripts.
- BlastRadius.AssessmentIgnoresOrder: the reason is the case and the total it quotes; the constant uncertainty note is not a field.
- Escalation.FindPrivilegeEscalations: a finding holds the subject's kind and the reason, which determine its path text.
- Json.DumpsRoundTrip: no floats, no lone surrogates, no dict keys other than strings.
- Graphs.ClusterGraph.Handle: values are taken to have the types their readers expect.
- Gateways.Gateway.Authorize: `now` is aware, and dict fields have the types their readers expect, or are absent or unreadable; list fields that are other values are not modelled.
- Deployment.AtMostOneInvocationPerApproval: one gateway decides one call at a time up to the INSERT; threads inside one process are not modelled.
- SQLite itself, connections, busy timeouts and journal modes: only the answer, conflict or error of the INSERT matters.
- SHA-256, uuid4 and credential minting: parameters.
- YAML and JSON files, integrity manifests, schema validation of the catalog: `ValidCatalog` states what they guarantee.
- The in-memory store across restarts, and the limiter under a clock that goes back: the repository claims nothing there.
- `is_consumed`, `graph/attack_path.py`, `graph/exposure.py`, `rollback/verification.py`, `executors/evidence_verifier.py`, the MCP servers, Rego policies, sandbox and Shuffle files: single checks, text matching or configuration.
