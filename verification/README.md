# Business assistant: a Dafny model of its protocols

This project models the decision-making core of the assistant in `app/` and proves what
it promises.  `dafny verify dfyconfig.toml` checks all of it.

## What is modelled

* **Payloads** (`Json`, `KeyOrder`, `CanonicalJson`, `Redaction`).  The canonical JSON form
  that binds an approval to its arguments is proved unambiguous by a parser that inverts it
  (sections 4 to 7 of RFC 8259); the log scrubber is proved to leave nothing sensitive.
* **Admission** (`SchemaValidation`, `SchemaStandard`, `Policy`).  The argument checker is
  proved equivalent to a declarative reading of its keywords and never to refuse what JSON
  Schema 2020-12 accepts, but for two refusals that are named exactly (and a third outside
  the value type: 1.0 against "integer", see below); what it accepts beside is said exactly,
  and on definitions as type hints produce them it is nothing.  The policy engine's verdicts
  are characterised one by one, and recur when a stored request comes back.
* **The approval protocol, one operation at a time** (`Approvals`, `ApprovalServices`,
  `ToolGateway`, `GrantAdmission`, `GatewayOutcomes`, `RequestLifecycle`, `GatewayProgress`,
  `GatewayWitnesses`, `ToolExecution`).  The services are classes over the approvals table,
  proved to refine functions on it.  Over every run of operations, with arbitrary grants and
  edited rows, each gated call that leaves is authorised at that moment and was confirmed by
  an entitled user in time; what each call sends, answers and stores is stated exactly;
  where each status goes is stated exactly, and so is when a grant can be used again.
* **The approval protocol, one statement at a time** (`ApprovalInterleaving`,
  `InterleavingProgress`, `InterleavingRefinement`, `InterleavingWitness`).  Any number of
  sessions with stale cached rows share one table; guarded updates look at it, assigned
  statuses do not.  One invariant, kept by every step, carries all the safety theorems: no
  write returns a row to pending.  A confirmation goes through among any others exactly when
  nobody decides first, and a session left to itself does exactly what the operation does.
* **The transcript** (`Transcript`, `MessageStore`).  The repair of a history window,
  exactly when windows stay contiguous, and the numbering of messages under concurrent
  appends.
* **The agent** (`AgentLoop`, `AgentReports`, `AgentTranscript`, `Agent`, `AgentGateway`,
  `AgentWitnesses`).  The graph with its two routers over an arbitrary model and arbitrary
  tools, while other requests may store rows in the same conversation: budget, outcome,
  bookkeeping, agreement of the history with the rows of the run, and, joined to the
  gateway, that a run sends no gated call and raises at most one request.
* **The rule-based planner** (`HeuristicPlanner`) inside that loop.
* **MCP** (`ToolNames`, `McpManager`, `McpConnection`, `McpClient`).  The name codec and the
  routing built on it, and the two-task life of a connection under every schedule.
* **Sales figures** (`Sales`).  Groups, averages and weeks.

Entities whose fields the program assigns are classes whose methods are proved equal to
functions of the old state; what is promised is then proved about those functions, over
all inputs and all runs.

## Assumptions

* The digest is an arbitrary collision-free function; SHA-256 itself is not modelled.
* JSON values are null, booleans, integers, strings, lists and dictionaries with string
  keys.  `json.dumps` escapes as section 7 of RFC 8259 has it, with non-ASCII kept.
* A single UPDATE or INSERT is atomic and takes effect when its transaction commits; a
  session reads a row it has already loaded from its own copy.
* In the sequential model the arguments of a row may be edited from outside at any time,
  and grants may be any value; in the interleaved one grants come from confirmation
  alone, as in the route.
* A call that has left either is answered, and its row marked, or is interrupted (by a
  cancellation, an exception nobody catches there, or a commit that fails): then it has
  left and its row is as it was.
* Requests on one conversation may overlap: nothing in the program keeps them apart, so
  before any row of a run others may have arrived.  Where a theorem needs a run to be
  alone it says so.
* The tool registry, which keys are sensitive, the text scrubber, the intent patterns, the
  argument builders, all prose, the clock, and the answers of models and servers are
  parameters.

## Where the code differs from its documentation

The model follows the code.  Each point names the lemmas that say exactly when it happens,
and a concrete input or run where it does.

* `verify_grant` is described as reading authority from the database row; it reads the
  session's cached copy.  The safety theorems of `ApprovalInterleaving` hold all the same;
  what stale copies can overwrite is said by
  `ApprovalInterleaving.SessionOverwritesTerminalExactlyWhen`, and shown by
  `InterleavingWitness.RejectedRequestCanExpire`.
* The expiry predicate of the claim is described as evaluated by the database; the moment
  it compares with comes from the application's clock, read before the statement is sent,
  so a claim can approve a request that has expired
  (`ApprovalInterleaving.ClaimIsLateExactlyWhen`, `InterleavingWitness.ClaimCanBeLate`).
  Nothing is ever sent under such a claim (`ApprovalInterleaving.LateClaimNeverSends`).
* The status graph has edges beside the documented ones: an approved request can expire
  (`RequestLifecycle.ApprovedExpiresExactlyWhen`,
  `GatewayWitnesses.ApprovedRequestCanExpire`), and one whose stored arguments were edited
  can fail from any status (`RequestLifecycle.FailsUnsentExactlyWhen`,
  `GatewayWitnesses.EditedRequestCanFail`), also when it is decided already
  (`RequestLifecycle.TerminalRowMovesExactlyWhen`,
  `GatewayWitnesses.RejectedRequestCanFail`).
* `execute` with a grant compares the arguments of the grant, not those of the call
  (`GrantAdmission.ArgumentsBoundExactlyWhen`,
  `GatewayWitnesses.DirectExecuteCanSendOtherArguments`).  Only `execute_approved` makes
  them the same (`GrantAdmission.EveryApprovedCallSentAsShown`).
* An approval is single use except after an interrupted call, whose grant sends it again
  (`RequestLifecycle.ReplaySendsAgainExactlyWhenInterrupted`,
  `GatewayWitnesses.InterruptedCallCanLeaveTwice`).
* The schema checker is described as never rejecting falsely; it refuses a null required
  argument and an argument the schema does not name
  (`SchemaValidation.RefusalsBeyondTheStandard`, `SchemaValidation.NullQueryIsRefused`,
  `SchemaValidation.UnnamedLimitIsRefused`).  A third false refusal lies outside the value
  type: a float with a zero fraction, like 1.0, is an integer for section 6.1.1 of JSON
  Schema Validation 2020-12 and not for the checker.
* The schema checker is described as covering what the SDK generates from type hints.  There
  it accepts exactly what conforms (`SchemaStandard.PlainCallAcceptsExactly`); elsewhere it
  also accepts a boolean enumerated for an integer or the other way, any of several types,
  what stands beside a union, what a second reference leads to, several fits of a `oneOf`,
  and unknown keywords (`SchemaStandard.LeafAcceptsExactly`,
  `SchemaStandard.UnionAcceptsExactly`, `SchemaStandard.UnionConformsExactly`, and a value
  for each of them).
* The repair is described as dropping results whose call fell outside the window, which
  would leave a tail of the transcript; it leaves a gap when a call has an empty id, or
  when the window begins with another request's row that landed between a call and its
  result (`Transcript.WindowsAreSuffixesExactlyWhenLinked`,
  `AgentTranscript.EmptyIdLeavesAGap`, `AgentTranscript.OverlapLeavesAGap`).
* The supervisor's `_ready` is described as always set at its end; it is not if that is
  cancelled before its first step (`McpConnection.WaitEndsExactlyWhenBodyRan`,
  `McpConnection.CancelledBeforeStartLeavesWaiting`).
* The "repeated failures" branch is described as ending the run; it adds an error, and the
  run goes on (`AgentLoop.BatchLeadsOn`, `AgentLoop.FailingRunSpendsBudget`,
  `AgentWitnesses.FailingRunGoesOn`).
* A discovery failure, once recorded, is not cleared by a later successful discovery
  (`McpManager.MCPManager.RefreshCatalog`, `McpManager.RediscoverAfterFailure`).
* `summarise_action` raises `TypeError`, before any rule is applied, for recipients or
  attendees that cannot be spread (`Policy.VerdictFailsExactlyWhen`), if the argument check
  lets them pass (`ToolGateway.CrashesUnsentExactlyWhen`).  It does for a server that does
  not declare their type (`GatewayWitnesses.EmailToANumberCrashes`), and not for the shipped
  email server (`GatewayWitnesses.DeclaredRecipientsAreChecked`).
* An answer composed without the model, and the apology for an unreachable model, are
  returned to the user but not stored in the transcript (`AgentLoop.RunStoresWhatItSays`,
  `AgentWitnesses.SummaryIsNotStored`, `AgentWitnesses.ApologyIsNotStored`).
* A breakdown can return two groups called "unknown": the rows without a value and the
  rows whose value is that word (`Sales.LabelsCollideExactlyWhen`,
  `Sales.TwoGroupsCalledUnknown`).

## Model

| member | source | states |
|---|---|---|
| `KeyOrder.EquivSortsAlike` | app/core/security.py:140-149 | two equal dictionaries, whatever the insertion order of their keys at any depth, sort to the same value |
| `KeyOrder.SortedAlikeEquiv` | app/core/security.py:140-149 | only equal values sort to the same value: sorting keys loses nothing but their order |
| `KeyOrder.BeforeExactlyWhenAscending` | app/core/security.py:147-149 | one key comes before another exactly when they agree up to some place and there the first one ends or has the smaller code point |
| `KeyOrder.SortedKeysAscend` | app/core/security.py:147-149 | in a sorted value the keys of every dictionary, at every depth, ascend by code point |
| `KeyOrder.AscendingFormIsUnique` | app/core/security.py:147-149 | of the values equal up to key order exactly one has ascending keys |
| `CanonicalJson.TextReads` | app/core/security.py:147-149 | a reader of JSON strings undoes the escaping and stops at the closing quote, for every string |
| `CanonicalJson.PrintParses` | app/core/security.py:147-149 | a parser inverts the compact printer on every value and leaves what follows untouched: the text is unambiguous |
| `CanonicalJson.CanonicalReadsBack` | app/core/security.py:140-149 | the canonical form of any payload can be read back to a value equal to it up to key order, whose keys ascend at every depth, and which is the only one of that kind |
| `CanonicalJson.KeysInOrder` | app/core/security.py:147-149 | a dictionary given as b, a is written `{"a":2,"b":1}` |
| `CanonicalJson.ItemsInOrder` | app/core/security.py:147-149 | a list keeps its order and is written with bare commas |
| `CanonicalJson.EscapesExactly` | app/core/security.py:147-149 | how each character of a string is written: quotes, backslashes, the short escapes, other control characters in four hexadecimal digits, everything else as it is |
| `CanonicalJson.CanonicalIffEquiv` | app/core/security.py:140-149 | two payloads have the same canonical form exactly when they are equal up to key order; list order counts |
| `CanonicalJson.VerifiesIffSamePayload` | app/core/security.py:152-165 | with a collision-free digest, a payload verifies against the digest of a stored one exactly when the two are equal |
| `CanonicalJson.PayloadHashBinds` | app/core/security.py:152-160 | the payload hash, over any collision-free digest, tells any two different payloads apart and no two equal ones: the assumption the approval theorems rest on is met |
| `Redaction.RedactLeavesNothingSensitive` | app/core/security.py:78-98 | in the scrubbed value every sensitive key holds the marker, at every depth, and no text has anything left to scrub |
| `Redaction.RedactFixesCleanValues` | app/core/security.py:78-98 | a value that is already clean and within the depth bound is returned unchanged |
| `Redaction.RedactBoundsDepth` | app/core/security.py:85-97 | whatever the input, the result is nested at most one level beyond the bound |
| `Redaction.RedactKeepsSkeleton` | app/core/security.py:85-97 | down to the bound the result has the same keys in the same order, lists of the same length, each text scrubbed, each sensitive value replaced by the marker and every other scalar as it was; below it there is the truncation marker |
| `Redaction.RedactIdempotent` | app/core/security.py:78-98 | scrubbing twice is scrubbing once, for every idempotent text scrubber |
| `SchemaValidation.BranchDescends` | app/mcp/validation.py:71-76 | for schemas without a cycle through an alternative, going into an alternative, with its two levels of reference, is progress: the recursion ends |
| `SchemaValidation.CheckKeywords` | app/mcp/validation.py:83-115 | no problem is reported exactly when every supported keyword holds, and each reported problem names a keyword that is broken |
| `SchemaValidation.CheckValue` | app/mcp/validation.py:65-115 | the recursive checker reports nothing exactly when the declarative reading of the schema accepts the value |
| `SchemaValidation.ValidateArguments` | app/mcp/validation.py:36-62 | no problem exactly when the whole argument set is acceptable; every missing or null required argument and every unknown one is reported |
| `SchemaValidation.NeverRefusesConforming` | app/mcp/validation.py:65-128 | a value that conforms to JSON Schema 2020-12, under any reading of the keywords the checker does not know, is accepted, references, unions and all |
| `SchemaStandard.LeafAcceptsExactly` | app/mcp/validation.py:83-115 | for every value: accepted exactly if it violates nothing that is checked, and conforming exactly if, besides, nothing passes unchecked (a boolean enumerated for an integer, several types, an unknown keyword, an unfollowed reference) |
| `SchemaStandard.UnionAcceptsExactly` | app/mcp/validation.py:71-81 | for every value: a union is accepted exactly if one of the alternatives that are tried is, whatever stands beside it |
| `SchemaStandard.UnionConformsExactly` | app/mcp/validation.py:71-81 | it conforms exactly if nothing beside the union is violated or unchecked, some `anyOf` alternative fits, and one and only one of `oneOf` |
| `SchemaStandard.UnionOfPlainAcceptsExactly` | app/mcp/validation.py:71-81 | for every value and any union of definitions as type hints produce them: accepted exactly if it conforms to an alternative that is tried |
| `SchemaStandard.PropertyAcceptsExactly` | app/mcp/validation.py:117-128 | a property is accepted as what it refers to, one reference deep |
| `SchemaStandard.PlainAgrees` | app/mcp/validation.py:65-115 | on definitions as type hints produce them the checker accepts exactly what conforms |
| `SchemaStandard.PlainPropertyAgrees` | app/mcp/validation.py:65-128 | so it does on a property that is or refers to one |
| `SchemaStandard.PlainCallAcceptsExactly` | app/mcp/validation.py:36-62 | a whole call of such a tool is accepted exactly if every required argument is given and not null, every argument is named if any is, and each that is named and not null conforms |
| `SchemaStandard.LooseIsPythonEqual` | app/mcp/validation.py:88-90 | membership in an enumeration is equality as Python has it, with True equal to 1 at every depth and the order of keys ignored |
| `SchemaStandard.LooseBooleanIsAccepted` | app/mcp/validation.py:88-90 | accepted and not conforming: true where only 1 is enumerated |
| `SchemaStandard.SeveralTypesAreNotChecked` | app/mcp/validation.py:92-96 | accepted and not conforming: a number where a list of types names texts |
| `SchemaStandard.SiblingsAreNotChecked` | app/mcp/validation.py:71-81 | accepted and not conforming: a number that fits a union beside which the type is text |
| `SchemaStandard.SecondReferenceIsNotFollowed` | app/mcp/validation.py:117-128 | accepted and not conforming: a number behind two references, the second to a text |
| `SchemaStandard.TwoFitsAreAccepted` | app/mcp/validation.py:71-81 | accepted and not conforming: any value that fits both alternatives of a `oneOf` |
| `SchemaStandard.UnknownKeywordIsNotChecked` | app/mcp/validation.py:83-115 | accepted and not conforming: a value only an unknown keyword excludes |
| `SchemaValidation.UnionOfUnknownKeywordsConforms` | app/mcp/validation.py:71-81 | a union whose alternatives differ only in a keyword the checker does not know: the standard takes exactly one, and the checker accepts |
| `SchemaValidation.RefusalsBeyondTheStandard` | app/mcp/validation.py:47-60 | on conforming arguments the checker refuses exactly a null required argument or an argument the schema does not name |
| `SchemaValidation.NullQueryIsRefused` | app/mcp/validation.py:47-49 | a conforming call that is refused: its required argument is null |
| `SchemaValidation.UnnamedLimitIsRefused` | app/mcp/validation.py:51-54 | a conforming call that is refused: it adds an argument the schema does not name |
| `SchemaValidation.AcceptsIgnoresKeyOrder` | app/mcp/validation.py:65-115 | reordering the keys inside a value changes nothing about its acceptance |
| `SchemaValidation.AcceptedCallIsAcceptedAgain` | app/services/tool_execution_service.py:120-121 | arguments accepted when proposed are accepted again when they come back from the database in another key order |
| `Policy.VerdictIgnoresKeyOrder` | app/security/policy.py:130-189 | the verdict, and whether one can be given at all, does not depend on key order |
| `Policy.VerdictsExactlyWhen` | app/security/policy.py:130-189 | when each verdict is given, for all settings, roles, tools and arguments: deny for malformed arguments, for a viewer and a tool not registered as reading, or for an email to more than 50 addresses; allow for the rest exactly if the tool is registered as reading, or as writing and writes are not gated; and approval for what remains |
| `Policy.GatedExactlyWhen` | app/security/policy.py:175-189 | a tool is gated exactly if it is not registered as reading, nor as writing while writes go free |
| `Policy.RecipientsAreCounted` | app/security/policy.py:239-252 | what is compared with the limit is the number of addresses in both fields, a single text counting as one |
| `Policy.ApprovalVerdictRecurs` | app/security/policy.py:149-189 | a call gated for its proposer is gated again, not denied and not allowed, for anyone who may approve it |
| `Policy.VerdictFailsExactlyWhen` | app/security/policy.py:239-252 | there is no verdict but a `TypeError` exactly when an email's recipients or copies, or an event's attendees, are `true` or a number other than zero |
| `Approvals.DecisionsSucceedExactlyWhen` | app/services/approval_service.py:185-213 | confirmation succeeds exactly for an entitled user on an intact, pending request strictly before its expiry; rejection exactly for an entitled user on a pending one |
| `Approvals.ConfirmAnswersExactly` | app/services/approval_service.py:173-238 | which of its six answers a confirmation gives, each exactly when, and what it writes: the decision, its time and its decider, or the end of an expired or edited request, and no other row |
| `Approvals.RejectAnswersExactly` | app/services/approval_service.py:240-268 | the same for a rejection |
| `Approvals.VerifyAnswersExactly` | app/services/approval_service.py:271-294 | the same for the grant check |
| `Approvals.ExpiresExactly` | app/repositories/approval_repository.py:160-173 | the bulk expiry ends exactly the pending rows whose time has come, at its moment, and leaves every other row as it is |
| `ApprovalServices.ApprovalService.CreateRequest` | app/services/approval_service.py:92-147 | a fresh pending row with the digest of its own arguments and the configured lifetime; no other row changes |
| `ApprovalServices.ApprovalService.ClaimPending` | app/repositories/approval_repository.py:74-109 | approves the row and says so exactly when it is pending and unexpired at that moment |
| `ApprovalServices.ApprovalService.RejectPending` | app/repositories/approval_repository.py:111-136 | rejects the row and says so exactly when it is pending |
| `ApprovalServices.ApprovalService.ExpireStale` | app/repositories/approval_repository.py:160-173 | expires every stale pending row and no other, and returns how many they were |
| `ApprovalServices.ApprovalService.Confirm` | app/services/approval_service.py:173-238 | the imperative confirmation has the effect and the error of the specification in every case |
| `ApprovalServices.ApprovalService.Reject` | app/services/approval_service.py:240-268 | the imperative rejection has the effect and the error of the specification in every case |
| `ApprovalServices.ApprovalService.VerifyGrant` | app/services/approval_service.py:271-294 | the imperative grant check has the effect and the error of the specification in every case |
| `ToolGateway.ExecuteDoesOneOfFour` | app/services/tool_execution_service.py:116-137 | executing a call does nothing, sends an ungated call, raises a request, or goes through the grant check; nothing else |
| `GatewayOutcomes.SendsExactly` | app/services/tool_execution_service.py:106-137 | for every call, with or without a grant: it leaves under no approval exactly if it is acceptable and permitted outright, under its grant's exactly if it waits for approval and the grant verifies, and not at all otherwise |
| `GatewayOutcomes.AnswersExactly` | app/services/tool_execution_service.py:106-137 | for every call, each answer exactly when: ran with success or without, crashed, refused, awaiting approval, or the failure of its grant |
| `GatewayOutcomes.StoresExactly` | app/services/tool_execution_service.py:106-137 | for every call, what becomes of the table: a new request with the proposed terms, a mark, the end of a row whose grant fails, or nothing |
| `GatewayOutcomes.ViewersReadOnly` | app/security/policy.py:155-160 | over every run, whatever else happens in it, the calls viewers send are of tools registered as reading |
| `ToolGateway.CrashesUnsentExactlyWhen` | app/services/tool_execution_service.py:116-126 | `execute` raises a `TypeError`, with nothing sent, exactly for a known tool whose arguments pass the check and are such recipients or attendees |
| `GatewayWitnesses.EmailToANumberCrashes` | app/services/tool_execution_service.py:116-126 | an email to the number five, through a server that does not declare its recipients: a viewer, whom the rules would refuse, is answered with a `TypeError` |
| `GatewayWitnesses.DeclaredRecipientsAreChecked` | mcp_servers/email_server/server.py:72-78 | through a server that declares them as a list, as the shipped one does, the same call is refused by the argument check |
| `ToolGateway.StepKeepsInv` | app/services/tool_execution_service.py:116-137 | every operation keeps: rows describe what they were raised for, every sent call is accounted for, and no call follows another under an approval whose row was marked |
| `GrantAdmission.GrantedRunsExactlyWhenVerifiable` | app/services/approval_service.py:271-294 | a call with a grant is sent exactly when row, tool, status, clock and both digests agree, and is otherwise refused without being sent |
| `GrantAdmission.AuthorisedExactlyWhenVerifiable` | app/services/approval_service.py:278-293 | those digest comparisons amount to equality of the stored, the granted and the originally proposed arguments |
| `GrantAdmission.GrantAdmittedExactlyWhenAuthorised` | app/services/tool_execution_service.py:128-135 | a gated, acceptable call with a grant leaves exactly when the row is approved and unexpired, for this tool, with arguments equal to the proposed ones |
| `GrantAdmission.PresentSendsExactlyWhen` | app/services/tool_execution_service.py:116-137 | any call with a grant: a gated one leaves exactly when it is admitted and authorised, under that approval; an ungated one under none |
| `GrantAdmission.ArgumentsBoundExactlyWhen` | app/services/tool_execution_service.py:130-135 | the arguments that leave equal the ones a human was shown exactly when the call carries the arguments of its grant |
| `GrantAdmission.EveryApprovedCallSentAsShown` | app/services/tool_execution_service.py:361-382 | over every run in which grants are used through `execute_approved`, every approved call leaves with the arguments that were shown |
| `GatewayWitnesses.DirectExecuteCanSendOtherArguments` | app/services/tool_execution_service.py:106-137 | a run from the empty table (propose, confirm, `execute` with the grant and another call) after which other arguments than the approved ones have left |
| `GatewayWitnesses.InterruptedCallCanLeaveTwice` | app/services/tool_execution_service.py:165-168 | a run from the empty table in which an approved call is cut off after it left, and its grant, presented again, sends it a second time |
| `RequestLifecycle.StatusMovesExactlyTo` | app/services/approval_service.py:173-294 | for every world and operation, where the status of every row goes: who must confirm, reject, redeem or expire it, and when |
| `RequestLifecycle.ApprovedExpiresExactlyWhen` | app/services/approval_service.py:284-286 | the undocumented edge from approved to expired is taken exactly when an admitted call presents a grant for this row and its tool at or after the expiry |
| `RequestLifecycle.FailsUnsentExactlyWhen` | app/services/approval_service.py:188-192 | the undocumented edges to failed, from any status and without a call, are taken exactly when the stored arguments were edited and an entitled user confirms, or an admitted call redeems the approved row in time |
| `RequestLifecycle.TerminalRowMovesExactlyWhen` | app/services/approval_service.py:188-192 | an operation changes a terminal status exactly when an entitled user confirms a request whose stored arguments were edited and which is not failed already |
| `RequestLifecycle.TerminalStatusesAbsorb` | app/models/database/enums.py:101-109 | while nobody edits stored arguments, a terminal status stays what it is for the rest of any run |
| `RequestLifecycle.ApprovedWasConfirmed` | app/services/approval_service.py:173-213 | in every run from the empty table, an approved row has an earlier successful confirmation by an entitled user strictly before its expiry |
| `RequestLifecycle.EveryDispatchIsBacked` | app/services/tool_execution_service.py:128-137 | after every run, with forged, replayed or altered grants and edited rows, an operation sends at most one call; a gated one leaves only while its row is approved and unexpired, with stored and granted arguments equal to the proposed ones, after an entitled user confirmed that row in time |
| `RequestLifecycle.ApprovalsAreUsedOnce` | app/services/tool_execution_service.py:195-230 | over every run: no call leaves under an approval whose row was marked before, so none is used twice while no approved call is cut off before its mark |
| `RequestLifecycle.ReplaySendsAgainExactlyWhenInterrupted` | app/services/tool_execution_service.py:165-230 | a grant presented again before the expiry sends its call again exactly when the first call was cut off before the row was marked |
| `GatewayProgress.StrangersAreHarmless` | app/services/approval_service.py:351-360 | decisions by users who may not decide a request, grants that do not verify against it, bulk expiries before its time and operations on other requests are harmless to it |
| `GatewayProgress.RunOfHarmlessLeavesRow` | app/services/approval_service.py:173-294 | any run of operations that neither edit a request, nor move its status, nor send it, leaves its whole row as it is |
| `GatewayProgress.ConfirmedRequestRunsOnce` | app/services/tool_execution_service.py:361-382 | a request raised by `execute`, stored with its keys in any order and confirmed in time by an entitled user, with any harmless operations on it and others in between, passes every check again, is sent once with the arguments shown, and its row is marked by the answer |
| `GatewayWitnesses.ApprovedRequestCanExpire` | app/services/approval_service.py:284-286 | a run from the empty table: propose, confirm, present the grant at the expiry; the approved request is expired and nothing was sent |
| `GatewayWitnesses.EditedRequestCanFail` | app/services/approval_service.py:188-192 | a run from the empty table: propose, edit the stored arguments, confirm; the pending request is failed and nothing was sent |
| `GatewayWitnesses.RejectedRequestCanFail` | app/services/approval_service.py:188-192 | a run from the empty table: the same after a rejection; the rejected request is failed |
| `ToolExecution.ToolExecutionService.Execute` | app/services/tool_execution_service.py:106-137 | the service as an object refines the specification: same table, same log of sent calls, same outcome |
| `ToolExecution.ToolExecutionService.RequestApproval` | app/services/tool_execution_service.py:241-282 | without an owner the call is refused and nothing changes; with one a request is raised |
| `ToolExecution.ToolExecutionService.ExecuteGranted` | app/services/tool_execution_service.py:131-135 | a call with a grant is verified against the row, then sent and marked |
| `ToolExecution.ToolExecutionService.Dispatch` | app/services/tool_execution_service.py:140-239 | a call is sent, and the approval it ran under is marked by its success, unless the call is cut off |
| `ToolExecution.ToolExecutionService.ExecuteApproved` | app/services/tool_execution_service.py:361-382 | the call that runs is the one the grant names |
| `ApprovalInterleaving.StepKeepsInvariant` | app/services/approval_service.py:173-238 | the frame shared by all steps: with the table, the moving session and the new event checked, everything else keeps its guarantees |
| `ApprovalInterleaving.ClaimKeepsInvariant` | app/repositories/approval_repository.py:89-109 | the guarded update succeeds on a pending row only, so nobody decided the request before |
| `ApprovalInterleaving.AssignKeepsInvariant` | app/services/approval_service.py:362-381 | a status written without looking breaks nothing the protocol rests on: it never reopens a request |
| `ApprovalInterleaving.VerifyCopyKeepsInvariant` | app/services/approval_service.py:278-294 | a grant that passes the check on a stale copy still has the tool and the digest of the proposal |
| `ApprovalInterleaving.SendKeepsInvariant` | app/services/tool_execution_service.py:140-168 | a call is sent under the session's own claim, which nothing was sent under before |
| `ApprovalInterleaving.ActionKeepsInvariant` | app/api/routes/approvals.py:117-124 | every statement of every session, in any state, keeps the invariant |
| `ApprovalInterleaving.EverySendAuthorised` | app/api/routes/approvals.py:117-124 | in every interleaving each approved call that leaves has its own session's earlier claim, by an entitled user, whose UPDATE took effect strictly before the expiry, and carries the proposed tool and arguments |
| `ApprovalInterleaving.ClaimIsLateExactlyWhen` | app/repositories/approval_repository.py:89-109 | a claim takes effect at or after the expiry exactly when the row is pending and the clock reading it compares with was in time and the statement is not |
| `ApprovalInterleaving.LateClaimNeverSends` | app/services/approval_service.py:284-286 | nothing ever leaves under such a claim, nor for its request |
| `ApprovalInterleaving.FreeSendsAreUngated` | app/services/tool_execution_service.py:128-137 | calls that leave without an approval are of tools that need none |
| `ApprovalInterleaving.DecidedAtMostOnce` | app/repositories/approval_repository.py:89-136 | over a whole run at most one claim, rejection or bulk expiry of a request succeeds |
| `ApprovalInterleaving.SentAtMostOnce` | app/api/routes/approvals.py:117-124 | two approved calls never share a claim nor a request: no approval is used twice |
| `ApprovalInterleaving.RefusedNeverSent` | app/services/approval_service.py:240-268 | a rejected or bulk-expired request is sent neither before nor after |
| `ApprovalInterleaving.SessionOverwritesTerminalExactlyWhen` | app/services/approval_service.py:173-294 | of all steps of a session exactly three overwrite a terminal status: a confirmation whose copy is pending and has expired or was edited, a grant check whose copy is approved and has expired or was edited, and a mark over what the row has become |
| `InterleavingWitness.RejectedRequestCanExpire` | app/services/approval_service.py:196-200 | a schedule from the empty table: two sessions read a request, one rejects it, the clock passes its expiry, and the other, on the copy it kept, expires it |
| `InterleavingWitness.ClaimCanBeLate` | app/repositories/approval_repository.py:84-98 | a schedule from the empty table: a session checks a request in time, the clock passes the expiry, and its claim approves the expired request |
| `InterleavingProgress.StepLeavesClaimed` | app/api/routes/approvals.py:117-124 | before the expiry no step of any other session changes the row of a request that a session has claimed, if its arguments were not edited |
| `InterleavingProgress.OthersLeaveClaimed` | app/api/routes/approvals.py:117-124 | nor does any other action: new requests, the clock, the bulk expiry, edits of other rows |
| `InterleavingProgress.ConfirmSendsExactlyWhenPending` | app/services/approval_service.py:173-238 | a session confirms a request, on a current or an old copy, with any actions of others between its statements but edits of its arguments: if the row is still pending when its claim runs and the grant is checked before the expiry, the call leaves as stored, under that claim, and the row is marked; if it is not pending, the session ends without sending |
| `InterleavingRefinement.ConfirmStatementsConfirm` | app/services/approval_service.py:173-238 | statement by statement and undisturbed, a confirmation is the confirmation: same table, same grant, one claim in the log exactly for a grant |
| `InterleavingRefinement.RejectStatementsReject` | app/services/approval_service.py:240-268 | so is a rejection |
| `InterleavingRefinement.ExecuteStatementsExecute` | app/services/tool_execution_service.py:361-382 | so is the execution of an approved call: same table, and what leaves is the same, under the session's claim exactly if there it leaves under the approval |
| `InterleavingRefinement.RaiseProposes` | app/services/tool_execution_service.py:116-137 | so is a proposal: it leaves, becomes the same row, or does neither |
| `InterleavingRefinement.ExpireBulkExpires` | app/repositories/approval_repository.py:160-173 | so is the bulk expiry, whose event names the rows it ends |
| `InterleavingRefinement.CopyStaysUntilRefreshed` | app/services/approval_service.py:202-225 | a copy once loaded stays as it was through every step but the refresh after the session's own claim |
| `InterleavingRefinement.TooLateChangesNothing` | app/repositories/approval_repository.py:89-136 | a decision that finds the request decided, or its moment past the expiry, changes nothing and ends its session |
| `InterleavingRefinement.AbandonedIsInert` | app/api/routes/approvals.py:117-124 | a session can be abandoned at any point; after that it neither writes nor sends |
| `Transcript.RepairDangling` | app/services/conversation_service.py:175-194 | the one-pass loop with its growing set computes the repair |
| `Transcript.RepairIsAcceptable` | app/services/conversation_service.py:175-194 | in the repaired history every tool message follows an assistant message carrying its id, and nothing was added or reordered |
| `Transcript.RepairIsLargest` | app/services/conversation_service.py:175-194 | every acceptable selection of messages is contained in the repair: nothing is dropped needlessly |
| `Transcript.RepairFixesExactlyAcceptable` | app/services/conversation_service.py:175-194 | the repair leaves a history alone exactly when it is acceptable, and a second repair changes nothing |
| `Transcript.WindowsAreSuffixesExactlyWhenLinked` | app/services/conversation_service.py:131-143 | for every transcript: each window is contiguous after its repair exactly when the nearest row before each result that is no result, if there is one, is an assistant row that keeps its id when mapped |
| `Transcript.NamedExactly` | app/services/conversation_service.py:149-154 | mapping a row keeps each call that has an id and a name, as often as it is there, and no other |
| `Transcript.NamedOfConcat` | app/services/conversation_service.py:149-154 | and keeps their order |
| `MessageStore.SequencesHaveNoGaps` | app/repositories/conversation_repository.py:56-91 | with any number of appenders that read the maximum and insert later under the unique index, the numbers in use are always 1 to n |
| `MessageStore.InsertSucceedsExactlyWhenUncontended` | app/repositories/conversation_repository.py:56-91 | an insert succeeds exactly when nobody inserted since its number was read, and then it is the last message; either way the number has to be read again |
| `MessageStore.UndisturbedAppendIsLast` | app/repositories/conversation_repository.py:56-91 | after any history an append that nobody comes between becomes the last message |
| `MessageStore.UnnumberedInsertDoesNothing` | app/repositories/conversation_repository.py:68-91 | without a number read for it nothing is inserted |
| `MessageStore.TranscriptOnlyGrows` | app/repositories/conversation_repository.py:68-91 | the transcript at any time is a prefix of the transcript at any later time |
| `MessageStore.ListingIsTheTail` | app/repositories/conversation_repository.py:93-107 | after any history of appends a listing returns the last messages, oldest first: as many as asked for, or 50, never fewer than 1 nor more than 200 |
| `MessageStore.HistoryIsATail` | app/services/conversation_service.py:131-143 | the loaded history of a linked transcript is a contiguous tail of it, within the page size, for every limit and setting and every schedule of appends |
| `MessageStore.HistoryIsExactlyTheWindow` | app/services/conversation_service.py:131-143 | which tail it is: the last rows, as many as asked for or configured, between 1 and 200, without the results they begin with |
| `MessageStore.ConversationRepository.NextSequence` | app/repositories/conversation_repository.py:56-66 | one more than the greatest number in use |
| `MessageStore.ConversationRepository.AddMessage` | app/repositories/conversation_repository.py:68-91 | an undisturbed append adds its message at the end and returns its number |
| `MessageStore.ConversationRepository.ListMessages` | app/repositories/conversation_repository.py:93-107 | newest first up to the limit, then turned around |
| `AgentLoop.PassSpendsBudget` | app/agents/graph.py:59-72 | the cycle closes only after a planning pass that used up one unit of the budget |
| `AgentLoop.RunIsBounded` | app/agents/graph.py:52-104 | whatever model and tools answer, the model is asked at most max(0, max_iterations) times and a run ends completed, failed or awaiting approval, the last exactly when an approval is pending |
| `AgentLoop.RunIsTruthful` | app/agents/nodes.py:295-328 | the answer fits what happened: the apology exactly when the run failed, the notice exactly when an approval is pending; without words of the model the latest five successful results in order, exactly when there are any, or else the last two errors, exactly when there are any, or else that nothing was found |
| `AgentReports.RunReportsExactly` | app/agents/nodes.py:108-257 | the errors of every run that ends, in order: that no tool was available, what each failing call reported, the note after each batch from the second on while nothing has worked, and at the end the failure of the model or the spent budget; a budget of nothing asks the model nothing |
| `AgentLoop.RunStoresWhatItSays` | app/agents/nodes.py:295-328 | of a run that did not pause, the answer is the last row stored exactly when it is in the model's own words; a summary made without it or an apology is not stored; a paused run stores the notice of what is pending as its last row |
| `AgentLoop.BatchLeadsOn` | app/agents/nodes.py:263-289 | after any batch the run goes on exactly when it has not paused and has budget left: failures, repeated or not, never end it |
| `AgentLoop.FailingPassGoesOn` | app/agents/nodes.py:276-289 | with a batch in which every call fails, from the second on, the errors say that it is stopping, and the run goes on while it has budget |
| `AgentLoop.FailingRunSpendsBudget` | app/agents/nodes.py:276-289 | a run in which every call fails spends its whole budget and ends completed |
| `AgentWitnesses.FailingRunGoesOn` | app/agents/nodes.py:276-289 | a run with a model that repeats one failing call: after it was told to be stopping it asks the model again, five times in all |
| `AgentWitnesses.ApologyIsNotStored` | app/agents/nodes.py:295-328 | a run whose model cannot be reached: the user is told so, and the transcript holds the question alone |
| `AgentWitnesses.SummaryIsNotStored` | app/agents/nodes.py:295-328 | a run with a budget of one: what the tool found is told to the user, and the transcript ends with the tool's row |
| `AgentLoop.BatchIsAnswered` | app/agents/nodes.py:200-257 | within a batch there is one result per executed call, in order, and a pause only at its end; of a batch that breaks off, the same up to the call that broke it off |
| `AgentLoop.BatchRunsInOrder` | app/agents/nodes.py:200-257 | what is executed of a batch is a prefix of it, all of it unless a call pauses or breaks off the run |
| `AgentLoop.RunAccounts` | app/agents/nodes.py:200-257 | over a whole run results match executed calls one to one, each with the id, the name, the success, the text and the error of its call and outcome, but for the call a broken-off run ended in; every batch but the last ran completely; a paused batch ran exactly up to the gated call |
| `AgentLoop.EveryRun` | app/agents/runner.py:78-123 | the bounds and the bookkeeping hold for every run from its opening |
| `AgentTranscript.RenderersAgreeExactlyWhen` | app/agents/nodes.py:343-349 | the text shown to the model and the text stored agree exactly unless a failure has an empty message |
| `AgentTranscript.ResultTurnsSay` | app/services/conversation_service.py:164-172 | the turn of each outcome in both renderings: structured content before text, the notice for a gated call, and "The tool failed." stored for a failure that says nothing |
| `AgentTranscript.PlanInStep` | app/agents/nodes.py:148-171 | across the planning node the history stays the loaded one plus the turns this run stored, texts included, whatever other requests store meanwhile |
| `AgentTranscript.BatchInStep` | app/agents/nodes.py:196-257 | so it does across the execution node, also when the batch pauses or breaks off; texts differ exactly for silent failures |
| `AgentTranscript.PassInStep` | app/agents/graph.py:75-104 | so it does from one planning pass to the next, by whichever way round the graph |
| `AgentTranscript.HistoryMirrorsOwnRows` | app/agents/nodes.py:148-171 | at the end of every run, broken off or not, the history is the repaired window loaded once the user's message is stored, plus the turns this run stored since, in order, but for the closing notice; they stand in that order among the rows others stored, and are all there is if nobody did |
| `AgentTranscript.RunKeepsLinks` | app/agents/nodes.py:200-257 | a run that is alone on its conversation and whose model labels its calls keeps every result linked to its call |
| `AgentTranscript.ConversationsStayContiguous` | app/services/conversation_service.py:131-143 | for any sequence of runs, overlapping others or not: every window is contiguous after its repair exactly when the rows are linked; they are when requests do not overlap and calls are labelled |
| `AgentTranscript.OverlapLeavesAGap` | app/repositories/conversation_repository.py:68-91 | a conversation in which another request's message lands between a labelled call and its result: the result drops out of the last window |
| `AgentTranscript.EmptyIdLeavesAGap` | app/services/conversation_service.py:149-154 | a conversation of one request whose model leaves a call's id empty: its result drops out of the last window |
| `Agent.AgentRun.Plan` | app/agents/nodes.py:111-172 | the planning node as an object refines the specification |
| `Agent.AgentRun.ExecuteTools` | app/agents/nodes.py:178-257 | the loop over the proposed calls refines the specification |
| `Agent.AgentRun.ValidateResults` | app/agents/nodes.py:263-289 | so does validation |
| `Agent.AgentRun.Respond` | app/agents/nodes.py:295-328 | so does the closing node |
| `Agent.AgentRun.Invoke` | app/agents/graph.py:75-104 | the six-node graph with its two routers refines the cycle, crash or not |
| `AgentGateway.ServiceIsNeverGranted` | app/agents/nodes.py:203-205 | called as the agent calls it, without a grant, the gateway does nothing, sends an ungated call, or raises a request |
| `AgentGateway.ViewerRunsReadOnly` | app/security/policy.py:155-160 | a viewer's run through the real gateway sends only tools registered as reading and raises nothing |
| `AgentGateway.RunRaisesAtMostOneRequest` | app/agents/nodes.py:185-187 | a run through the real gateway, whatever others do to the approvals between its calls: each call sends nothing but ungated tools and leaves the rows it meets alone, except that the call the run paused on adds one pending request for itself, and the call it broke off at may |
| `HeuristicPlanner.CurrentTurnOf` | app/providers/llm/heuristic_provider.py:327-332 | the backward scan returns the messages from the latest user message on |
| `HeuristicPlanner.CollectToolResults` | app/providers/llm/heuristic_provider.py:308-324 | the loop gathers the last result of each tool named since the latest user message |
| `HeuristicPlanner.CompleteTurn` | app/providers/llm/heuristic_provider.py:244-292 | the scan over the steps refines the specification of a completion |
| `HeuristicPlanner.StepsAreDistinctAndShort` | app/providers/llm/heuristic_provider.py:173-232 | no tool sequence of the intent table repeats a tool or is longer than three |
| `HeuristicPlanner.LatestUserTextExactly` | app/providers/llm/heuristic_provider.py:301-305 | the text the intent is taken from is that of the latest user message that says something |
| `HeuristicPlanner.LatestResultIsGathered` | app/providers/llm/heuristic_provider.py:308-332 | what is gathered for a tool is its latest result since the user last spoke |
| `HeuristicPlanner.GatheredIsALatestResult` | app/providers/llm/heuristic_provider.py:308-332 | and nothing else is gathered |
| `HeuristicPlanner.CompletesExactly` | app/providers/llm/heuristic_provider.py:244-292 | the first step that is available and not gathered is proposed, with its arguments built from the text and what is gathered; with no such step the summary is given |
| `HeuristicPlanner.NextStepIsProposed` | app/providers/llm/heuristic_provider.py:259-261 | with the first n available steps gathered, the planner proposes the next one, and nothing once all are |
| `HeuristicPlanner.AnyRequestIsPlanned` | app/providers/llm/heuristic_provider.py:244-292 | any turn planned by the rules, whatever the loaded history holds: it proposes an ordered, duplicate-free prefix of the steps of the latest message's intent that are available and have no result yet, under ids that count the results, in at most one completion more than there are, and all of them unless it pauses, breaks off or has too small a budget |
| `HeuristicPlanner.RequestIsPlanned` | app/providers/llm/heuristic_provider.py:244-292 | in particular, when nobody's row arrives between a message and the loading of the history, these are all the available steps of its intent |
| `HeuristicPlanner.FollowUpIsDraftedThenSent` | app/providers/llm/heuristic_provider.py:173-183 | over a run: a follow-up by email asks for the leads, then the draft, then the sending, in that order however it is cut short |
| `HeuristicPlanner.OtherRequestsAskOnce` | app/providers/llm/heuristic_provider.py:184-232 | over a run: each other intent comes to one call of its own tool, where that is available |
| `HeuristicPlanner.AskedIdsAreDistinct` | app/providers/llm/heuristic_provider.py:272-280 | no two calls of a turn share an id |
| `HeuristicPlanner.PlannerLabelsCalls` | app/providers/llm/heuristic_provider.py:274-278 | every call it makes has an id and a name |
| `ToolNames.SplitInvertsExactlyWhen` | app/mcp/types.py:25-44 | splitting undoes qualifying exactly when both parts are non-empty and the server name has no separator and no final underscore; the wire name is the tool's own exactly for such server names |
| `ToolNames.QualifiedNamesAreUnique` | app/mcp/types.py:17-27 | with such server names no two tools share a qualified name |
| `ToolNames.UncleanNamesCollide` | app/mcp/client.py:191-192 | two servers, one with a separator in its name, whose tools share a qualified name and are sent under the wrong wire name |
| `ToolNames.CatalogFindsEverySpec` | app/mcp/discovery.py:84-100 | the catalog finds every discovered tool under its name: none is overwritten |
| `McpManager.DiscoveredExactly` | app/mcp/manager.py:117-138 | the specs discovered are exactly the tools listed by the connected servers, each with its server |
| `McpManager.RoutesExactlyTheListedTools` | app/mcp/manager.py:158-174 | a name is routed to a server under a wire name exactly when that server listed that tool, this is its qualified name, and the server is up now; with the server down it is answered as unavailable |
| `McpManager.UnknownExactlyUnlessListed` | app/mcp/manager.py:158-174 | a name is unknown exactly unless a listed tool has it |
| `McpManager.MalformedExactlyWithoutSeparator` | app/mcp/client.py:191-192 | taking the wire name raises exactly for a name without a separator, which no name in a catalog is |
| `McpManager.WireNameMatchesExactlyWhenClean` | app/mcp/client.py:191-198 | a routed call reaches the server of its spec, under the spec's own tool name exactly when that server's name is clean |
| `McpManager.MCPManager.ConnectOne` | app/mcp/manager.py:78-97 | a server that fails is recorded and is not up; one that connects is up and its failure is forgotten |
| `McpManager.MCPManager.RefreshCatalog` | app/mcp/manager.py:110-150 | the catalog is what the connected servers listed; the failures are the old ones and those of this discovery, and none is cleared |
| `McpManager.RediscoverAfterFailure` | app/mcp/manager.py:110-150 | a manager refreshes twice, once when a server cannot list its tools and once when it can: the tool is in the catalog and the failure is still recorded |
| `McpManager.MCPManager.CallTool` | app/mcp/manager.py:158-174 | routing as specified, with the error for an unknown tool and for a server that is down |
| `McpManager.MCPManager.Startup` | app/mcp/manager.py:47-76 | starts exactly unless it is to fail fast and a server is unreachable; the failures are then exactly the unreachable servers and those that could not list their tools |
| `McpConnection.StepKeepsInv` | app/mcp/client.py:67-174 | every stretch of code of either task keeps what holds at suspension points |
| `McpConnection.ClientExactlyWhenConnected` | app/mcp/client.py:103-129 | under every schedule a client is published exactly while the state is connected and a supervisor holds the session |
| `McpConnection.WaitEndsExactlyWhenBodyRan` | app/mcp/client.py:83-94 | the wait of `connect` on a dead supervisor is over at once exactly when the supervisor's body had begun, and after the timeout in any case |
| `McpConnection.CancelledBeforeStartLeavesWaiting` | app/mcp/client.py:81-89 | a supervisor cancelled before its first step never signals |
| `McpConnection.ConnectLeavesConnectedOrNothing` | app/mcp/client.py:91-101 | when `connect` is over there is a live connected session, or neither supervisor nor client |
| `McpConnection.ConnectSucceedsExactlyWhen` | app/mcp/client.py:83-101 | woken by the event, `connect` comes back connected exactly if the supervisor holds the session open, and otherwise without supervisor or client |
| `McpConnection.EnteredConnects` | app/mcp/client.py:103-115 | once the supervisor has entered, `connect` comes back connected whatever else happens, unless the clock or the transport ends it first |
| `McpConnection.AnyConnectCanSucceed` | app/mcp/client.py:67-115 | after any history, failed and timed out attempts included, a `connect` to a target that can be reached comes back connected |
| `McpConnection.TimeoutFails` | app/mcp/client.py:83-90 | when the clock runs out the supervisor is cancelled, and without a live one the connection has failed |
| `McpConnection.AbortedConnectFails` | app/mcp/client.py:149-174 | once the cancelled supervisor has ended the connection has failed, with neither supervisor nor client |
| `McpConnection.SessionEnds` | app/mcp/client.py:111-129 | a session that ends leaves the connection closed, or failed if by an error, the client withdrawn and the waiting task told |
| `McpConnection.AttemptFails` | app/mcp/client.py:111-129 | an attempt that fails leaves it failed, and one that is cancelled connecting, the waiting task told |
| `McpConnection.BadTargetFails` | app/mcp/client.py:103-129 | a target that cannot be set up fails at the first step, and `connect` is told |
| `McpConnection.DisconnectStops` | app/mcp/client.py:131-147 | over any history, a connection that is up is closed by `disconnect` once the supervisor has come to its stop, however it left the session |
| `McpConnection.StopIsAsked` | app/mcp/client.py:131-147 | while `disconnect` waits, the supervisor has been told to stop |
| `McpConnection.DisconnectEnds` | app/mcp/client.py:131-147 | `disconnect` waits for the supervisor, cancels it when the clock runs out, and is done exactly when it has ended |
| `McpConnection.NoOrphanedSupervisor` | app/mcp/client.py:74-81 | `connect` never starts a second supervisor beside a live one |
| `McpConnection.DisconnectCloses` | app/mcp/client.py:131-147 | a finished `disconnect` of a started connection leaves it closed without a client, until the next `connect` |
| `McpConnection.CancelledEntryLeavesConnecting` | app/mcp/client.py:91-94 | a supervisor cancelled from outside while entering: `connect` raises and the state stays connecting |
| `McpClient.MCPServerConnection.Connect` | app/mcp/client.py:67-84 | starting a connection, as specified |
| `McpClient.MCPServerConnection.ConnectWakes` | app/mcp/client.py:83-94 | the end of its wait, as specified |
| `McpClient.MCPServerConnection.Abort` | app/mcp/client.py:149-174 | cancelling a live supervisor, or releasing a dead one |
| `McpClient.MCPServerConnection.DisconnectWakes` | app/mcp/client.py:136-147 | the end of the wait of `disconnect`, as specified |
| `McpClient.MCPServerConnection.EndSupervisor` | app/mcp/client.py:111-129 | the handlers at the end of the supervisor, as specified |
| `McpClient.MCPServerConnection.Serve` | app/mcp/client.py:67-174 | under any schedule of both tasks the object is in the state the schedule leads to, so every theorem about schedules is about the object |
| `Sales.AverageIsNearest` | app/repositories/sales_repository.py:109-110 | the average times the count misses the revenue by at most half a cent per record, no whole number of cents comes nearer, and of two equally near it is the even one; no records average to nothing |
| `Sales.SelectsExactly` | app/repositories/sales_repository.py:170-178 | a query selects the sales of its days and, if one is named, its region, each as often as it is there, and no other |
| `Sales.FiledExactly` | app/repositories/sales_repository.py:127-139 | under which key a sale is counted, for each of the five groupings |
| `Sales.GroupsSumTheirOwn` | app/repositories/sales_repository.py:147-168 | each key that occurs has one group, and its revenue, records and units are those of its own rows |
| `Sales.GroupsAddUp` | app/repositories/sales_repository.py:147-155 | the groups have distinct keys and together account for all revenue and all records |
| `Sales.BreakdownIsTheTop` | app/repositories/sales_repository.py:154-158 | the returned groups are as many as the limit, between 1 and 200, allows, in descending order of revenue, none omitted earned more, and they add up to the period when all fit the limit |
| `Sales.LabelsCollideExactlyWhen` | app/repositories/sales_repository.py:160-163 | two returned groups carry one label exactly when the group without a value and the group of the word "unknown" are both returned |
| `Sales.AllLabelsCollideExactlyWhen` | app/repositories/sales_repository.py:160-163 | when all groups fit the limit: exactly when some selected row has no value and some has that word |
| `Sales.TwoGroupsCalledUnknown` | app/repositories/sales_repository.py:160-163 | two sales, one without a region and one in the region "unknown", are reported as two groups of one name |
| `Sales.WeeksTileTheCalendar` | app/repositories/sales_repository.py:42-45 | each day lies in exactly one week, from a Monday, counted from day 1 of the calendar, to a Sunday, and weeks follow one another without gap or overlap |
| `Sales.RangesAddUp` | app/repositories/sales_repository.py:170-178 | revenue, units and records of two adjacent ranges add up to those of the whole |
| `Sales.WeeksAddUp` | app/integrations/spreadsheets/local.py:96-104 | consecutive weekly reports add up to the report of the whole range |
| `Sales.ReportedWeeksAreAFortnight` | app/integrations/spreadsheets/local.py:99-104 | the two weeks a report compares are adjacent and disjoint: together they are the fortnight, also when its bounds are given in reverse |

## Left out

- `resume_after_approval` and its closing message: it writes a tool row with an id no assistant row carries, so transcript theorems are stated over `run`.
- Tool bodies, the CRM, email, calendar and task integrations: a sent call is an event with any answer.
- The OpenAI provider, retries and prompts: the model is an arbitrary environment.
- The status column of a conversation, which mirrors the outcome of its last run.
- Audit records, logging, timers, configuration, HTTP wiring, the web console and migrations.
- API keys, HMAC comparison and secret generation.
- Floats (with them the refusal of 1.0 against "integer"), `default=str` and byte encoding in the canonical form; regular expressions in the scrubber and the intent table.
- Row locks between statements of one transaction: every interleaving is allowed, which includes those a database would forbid.
- An append that loses the race for its number ends the run where it stands: a crash of the step that made it; for the closing notice of a paused run this is not modelled.
- A request creation and a claim that are rolled back: they are not steps.
- LangGraph's own limit on the number of node visits, and its merging of partial states.
- Cancellation of whoever calls `connect` or `disconnect`; `ping`, `list_tools` and the conversion of results in the client.
- Concurrency inside the manager's startup: servers are connected one after the other.
- The first and last week of the representable calendar, where date arithmetic overflows.
- The number of distinct customers in sales totals, `add_record` and the headline of a report.
- `list_pending`, listings for users, permission descriptions and catalog statistics: easy members.
- Sales.AverageIsNearest: treats the quotient as exact; the program first rounds it to 28 significant digits.
- Sales.BreakdownIsTheTop: the database orders groups of equal revenue as it likes; the model puts the one met first in front.
- SchemaValidation.CheckValue: the message texts of problems are not modelled, their kinds are.
- McpConnection.DisconnectCloses: says nothing of an SDK that swallows the cancellation and never ends, with which `disconnect` does not finish.
