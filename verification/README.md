# mcp-lock broker: verification model

mcp-lock puts a broker between an MCP client and a set of tool servers. The broker spawns the servers, lists their
tools under `server.tool` names, and offers write tools only while an operator has elevated the server. An
elevation is granted by signing a fresh single-use nonce, and a tool classed `confirm` needs a further signed approval
for each call. This project models that broker in Dafny and proves what its parts promise together, over every input and
every interleaved run.

Values and objects stand side by side. Each operation is a function of values (`Nonces.AfterAttempt`,
`Aggregator.Call`, ...). Each object the broker updates in place is a class (`NonceStore`, `ServerSlot`, `BrokerState`,
`ToolAggregator`, `ControlHandler`, `McpHandler`, `AuditLog`, `StdioMcpClient`, `SseReader`) whose methods are proved
equal to those functions. `Runs` then interleaves the handlers' critical sections in any order, with any clock readings,
any client, child and generator behaviour, and the remaining modules prove properties of all such runs.

| file | what it covers |
|---|---|
| `Base`, `Names`, `Manifest`, `Policy`, `Broker` | integers, vectors, aggregated names, tool classes, exposure, slots |
| `Hex`, `Challenge`, `Nonces`, `NonceLaws` | nonces, the signed message and a reader that inverts it, the nonce store and its laws |
| `NonceRuns` | the nonce store inside a run, and when a submission is accepted |
| `Aggregator`, `ToolAggregators`, `Listings` | the aggregator as a value and as an object, its invariant, its two gates, confirmations, what `tools/list` says |
| `Handlers`, `Audit`, `RequestHandlers` | the handlers' critical sections, the audit ring, the handlers as objects |
| `Runs`, `History`, `WriteAuthority`, `Confirmations`, `Reach`, `Staleness`, `SilentSteps`, `AuditTrail`, `Restarts`, `Progress` | whole runs |
| `Worlds`, `Scenarios` | runs to exhibit, each for every server, tool, client and nonce |
| `McpClient`, `ChildCalls`, `Sse` | request ids over a child's line channel, line framing, the calls of a run as a child's requests, the server-sent-events reader |

## How a run is modelled

A step is one critical section. A submission is two steps (`Verify` on the nonce store, then `Apply` on the aggregator)
by one thread, with one reading taken before both; any other step may come between. Readings are unordered unless
a theorem says otherwise. `NonceLaws.StoreRefinesMap` and `NonceRuns.RunStoreRefinesMap` (with their lemmas) order the
readings of the steps under the nonce store's lock. `Staleness.StaleListingOnlyShrinks` and
`SilentSteps.OrderedStepsRevealNothing` order only the control steps on the server in question, which all run under the
aggregator's lock. Signature checking is an uninterpreted predicate; `WriteAuthority.Unforgeable` says that when a
submission is checked against the entry it names and verifies, the client's key has signed that entry's challenge before.
Notifications and audit entries are owed when the lock is released and sent or recorded by later steps.

## Where the code and its documentation differ

The model follows the code.

- `start` is described as bringing a server up read-only, never elevated (`crates/broker/src/aggregator.rs:225-227`,
  `docs/DESIGN.md:143-145`). It leaves the elevation as it was. `Restarts.StartIsReadOnlyExactlyWhen` gives the exact
  condition, `Restarts.StartIsReadOnlyForEveryListing` the one for a child not yet known, and
  `Scenarios.StartComesUpElevated` a run in which it fails.
- `docs/DESIGN.md:96-97` has `tools/list_changed` fired on expiry. No step happens on expiry:
  `AuditTrail.ExpiryChangesExposure` says when exposure changes that way, `Scenarios.ExpiryIsSilent` is a run with one. A
  call that faults also changes exposure and notifies nobody: `AuditTrail.OnlyFaultsChangeSilently`,
  `Scenarios.FaultIsSilent`.
- Pruning the nonce store can be told from outside: an expired nonce that has been pruned is reported as unknown instead
  of expired. `NonceLaws.StoreRefinesMap` says exactly when, and that nothing else differs; `Scenarios.PrunedIsUnknown`
  is a run in which it happens.
- A notification can be missed if readings are applied against their order. `SilentSteps.SilentRevealExactlyWhen` says,
  for every kind of step, exactly when a step that owes none reveals a name; `Scenarios.ResumeRevealsSilently` and
  `Scenarios.GrantRevealsSilently` are runs in which a `resume` and a grant do.
- `Nonce::from_hex` also accepts upper-case digits and a `+` in place of a leading zero:
  `Hex.LowerCaseIsTheOnlySpelling`, `Hex.SignedSpellingAccepted`.
- The audit log is documented to hold every expiry and every write tool invocation (`docs/DESIGN.md:165-167`). The code
  records no expiry, and of the write calls that reach a child only those that the child answers with a result:
  `AuditTrail.WriteIsAuditedExactlyWhenAnswered`; the run of `Scenarios.FaultIsSilent` has one that is not recorded.
- A window that saturates closes one second early, at the largest reading: `Policy.WindowBounds`.

One consequence of the code on which its documentation is silent: `resume` runs a server from any state, also without a
child, and an approved confirm call of it is then refused although its confirmation is used up. The exact condition is
`Aggregator.CallWastesConfirmation`, a run is `Scenarios.ApprovalIsWasted`.

## Model

| member | source | states |
|---|---|---|
| Names.SplitOfExternalName | crates/broker/src/aggregator.rs:291-293 | splitting an aggregated name at the first `.` gives back its server and tool, tool names with dots included |
| Names.ExternalNameOfSplit | crates/broker/src/aggregator.rs:266-271 | joining what a split gave is the name that was split, and the server part has no `.` |
| Names.ExternalNamesNeverCollide | crates/broker/src/aggregator.rs:142-147 | with dot-free server ids, tools of different servers never share a name |
| Names.SortCanonical | crates/core/src/policy.rs:160-166 | two sorted name lists are equal exactly when the unsorted ones hold the same names equally often |
| Names.LexIsBytewise | crates/core/src/policy.rs:165 | the order of names is byte-wise lexicographic: the first difference decides, and a name comes before its extensions |
| Manifest.CheckUniqueIds | crates/core/src/manifest.rs:151-220 | accepts exactly the manifests with distinct ids; otherwise reports the first id that repeats an earlier one |
| Policy.UnelevatedSurface | crates/core/src/policy.rs:36-64 | without an elevation, whatever a child advertises, exactly the advertised names that the operator declared as read are exposed |
| Policy.WindowBounds | crates/core/src/policy.rs:98-131 | a time-boxed elevation is active exactly before `granted_at + ttl` as unbounded integers, and never at the largest reading |
| Policy.WindowKinds | crates/core/src/policy.rs:107-130 | an elevation without an expiry is open at every reading, one with an expiry strictly before it, and the mode says which it is |
| Policy.ExposureRule | crates/core/src/policy.rs:150-167 | a name is exposed exactly when the server runs and has a tool of that name that is a read tool or is covered by an open elevation |
| Policy.ExposureCounts | crates/core/src/policy.rs:160-166 | the exposed names are sorted, each as often as the slot has tools of that name to show |
| Policy.ExposureShrinks | crates/core/src/policy.rs:122-131 | time alone never exposes anything new |
| Broker.PutSlotFrame | crates/core/src/broker.rs:140-148 | changing the slot found under an id changes that id's slot and no other |
| Broker.SnapshotEntries | crates/core/src/broker.rs:161-166 | a snapshot maps exactly the server ids, each to what its slot exposes |
| Broker.ServerSlot.GrantElevation | crates/core/src/broker.rs:77-79 | sets the elevation and nothing else |
| Broker.ServerSlot.FailClosed | crates/core/src/broker.rs:89-91 | clears the elevation and nothing else; the state is left to the caller |
| Broker.ServerSlot.SetState | crates/core/src/broker.rs:95-97 | sets the lifecycle state and leaves elevation and tools alone |
| Broker.BrokerState.Server | crates/core/src/broker.rs:141-148 | finds the first slot with the id, or nothing if there is none |
| Broker.BrokerState.ExposureSnapshot | crates/core/src/broker.rs:161-166 | the loop over slots builds the snapshot of their values |
| Hex.EncodeNonce | crates/core/src/elevation.rs:65-72 | the loop writes the lower-case hexadecimal spelling |
| Hex.DecodeNonce | crates/core/src/elevation.rs:75-84 | the loop reads 32 bytes from 64 characters or rejects, a leading `+` in a pair included |
| Hex.DecodeSignature | crates/broker/src/control_handler.rs:381-395 | the loop reads digit pairs of any even length and rejects everything else |
| Hex.NonceRoundTrip | crates/core/src/elevation.rs:65-84 | `from_hex(to_hex(n))` is `n` |
| Hex.LowerCaseIsTheOnlySpelling | crates/core/src/elevation.rs:75-84 | a lower-case string reads as `n` exactly when it is `to_hex(n)` |
| Hex.SignedSpellingAccepted | crates/core/src/elevation.rs:81 | a nonce that starts with a zero digit has a second accepted spelling, with a `+` |
| Hex.SignatureRoundTrip | crates/broker/src/control_handler.rs:381-395 | every byte string survives being written in hexadecimal and read by `decode_hex` |
| Hex.ToHexSpells | crates/core/src/elevation.rs:65-72 | each byte is two digits of `0123456789abcdef`, the high one first |
| Hex.DigitsInEitherCase | crates/broker/src/control_handler.rs:389-390 | a character is read as a digit exactly when it is that digit in lower or upper case |
| Hex.AcceptedSpellings | crates/core/src/elevation.rs:75-84 | exactly which strings are accepted as a nonce and as a signature, and every byte read is what its own pair says |
| Challenge.EscapeTable | crates/core/src/elevation.rs:184-186 | the seven short escapes, the long form for exactly the other characters below 0x20, every other character as it is (section 7 of RFC 8259) |
| Challenge.EscapeRoundTrip | crates/core/src/elevation.rs:184-186 | one escaped character reads back as itself whatever follows |
| Challenge.DecimalRoundTrip | crates/core/src/elevation.rs:197 | a printed window length reads back as the number |
| Challenge.DecimalSpells | crates/core/src/elevation.rs:197 | a number is printed in decimal digits without leading zeros |
| Challenge.DocRoundTrip | crates/core/src/elevation.rs:188-198 | the printed object reads back field by field, absent fields apart from empty ones |
| Challenge.ChallengeText | crates/core/src/elevation.rs:187-229 | the very text of the message for each purpose, field by field; plain names stand as they are |
| Challenge.ChallengeRoundTrip | crates/core/src/elevation.rs:187-229 | the signed bytes determine nonce, client and purpose |
| Challenge.ChallengeInjective | crates/core/src/elevation.rs:182-229 | no two challenges print the same, for all strings and all windows |
| Nonces.NonceStore.Issue | crates/core/src/elevation.rs:307-325 | prune, then refuse at 1024 entries or on a generator failure, then add one entry |
| Nonces.NonceStore.VerifyAndConsume | crates/core/src/elevation.rs:331-378 | removes the matching entry on any outcome, then judges age, client, signature length and signature in that order |
| Nonces.NonceStore.Prune | crates/core/src/elevation.rs:381-384 | every entry at most 60 seconds old stays as often as it was held, every other one goes, and the order is kept |
| NonceLaws.NoncesConserved | crates/core/src/elevation.rs:307-384 | after every sequence of issues and submissions: issued = pending + consumed + pruned, as multisets |
| NonceLaws.StoreBounded | crates/core/src/elevation.rs:314-316 | never more than 1024 pending nonces |
| NonceLaws.IssueRefusal | crates/core/src/elevation.rs:313-325 | `TooManyPending` exactly when 1024 unexpired entries remain, `Rng` exactly when the generator then fails, else the drawn nonce; a refusal only prunes; what is left is at most 60 seconds old |
| NonceLaws.AttemptTakesOne | crates/core/src/elevation.rs:339-352 | an attempt removes exactly one entry of its nonce and client, or changes nothing and reports an unknown nonce |
| NonceLaws.AttemptVerdict | crates/core/src/elevation.rs:350-377 | exactly when an attempt is answered expired, unknown client, malformed, bad signature or accepted, and what an accepted purpose turns into |
| NonceLaws.SameFreshCount | crates/core/src/elevation.rs:313-316 | the pruned vector and the never-pruned map count the same unexpired nonces |
| NonceLaws.PrunedWhenOutlived | crates/core/src/elevation.rs:381-384 | with ordered readings, an unconsumed entry is missing from the vector exactly when a nonce was asked for more than 60 seconds after its issue |
| NonceLaws.StoreRefinesMap | crates/core/src/elevation.rs:307-384 | with ordered readings and a generator that never repeats, the store answers as a map that never prunes, except that a pruned entry is reported unknown where the map says expired, exactly then |
| NonceRuns.StoreIsProjection | crates/broker/src/control_handler.rs:198-226 | the store of a run is what the run's issues and unblocked submissions alone make of an empty store |
| NonceRuns.RunNoncesConserved | crates/core/src/elevation.rs:307-384 | in every interleaved run: issued = pending + consumed + pruned, and at most 1024 pending |
| NonceRuns.RunStoreRefinesMap | crates/core/src/elevation.rs:331-384 | in every run with ordered store readings and a generator that never repeats, a submission is judged as by a store that never prunes, but for a pruned nonce reported unknown, exactly then |
| NonceRuns.PendingWhileUndisturbed | crates/core/src/elevation.rs:341-384 | an issued nonce is pending exactly until a submission of it by its client or an issue read more than 60 seconds after it |
| NonceRuns.SubmissionAcceptedExactlyWhen | crates/core/src/elevation.rs:331-378 | in every run, readings in any order: a submission of an issued nonce is accepted, for its own purpose, exactly when it is timely, registered and properly signed and nothing disturbed the nonce in between |
| Aggregator.BuildEstablishesInv | crates/broker/src/aggregator.rs:133-181 | a built aggregator satisfies the invariant, whatever children advertise and whichever fail |
| Aggregator.ColdStartSlots | crates/broker/src/aggregator.rs:142-171 | after build each server whose child came up runs, not elevated, with its tools in advertised order and the operator's classes; any other is stopped, empty and without a child |
| Aggregator.InstallKeepsInv | crates/broker/src/aggregator.rs:236-243 | a fresh child's listing is classified by the manifest and matches the stored definitions |
| Aggregator.StartKeepsInv | crates/broker/src/aggregator.rs:228-245 | `start` keeps the invariant, and a failed `start` changes nothing |
| Aggregator.StopKeepsInv | crates/broker/src/aggregator.rs:218-223 | `stop` keeps the invariant |
| Aggregator.CallKeepsInv | crates/broker/src/aggregator.rs:285-353 | `call` keeps the invariant, faults included |
| Aggregator.ClassIsOperators | crates/broker/src/aggregator.rs:396-409 | every tool of every slot has the class the manifest declares for its name, and write if it declares none |
| Aggregator.ListedExactlyWhenCallable | crates/broker/src/aggregator.rs:258-312 | a name is listed at a reading exactly when a call by it passes server lookup and exposure check then |
| Listings.ListingIsFaithful | crates/broker/src/aggregator.rs:258-278 | the listing has one entry per exposed tool, in slot and exposure order: the stored definition with `server.tool` for its name and every other member kept |
| Listings.DefinitionsFollowListing | crates/broker/src/aggregator.rs:236-243 | at every point of every run a server's definitions and classified tools come from one listing: its child's when it was last taken |
| Listings.ListingShowsLastDefinitions | crates/broker/src/aggregator.rs:404-407 | each listed entry is, renamed, the last definition of that name in that listing |
| Aggregator.GateDecidesRefusal | crates/broker/src/aggregator.rs:291-332 | a call outside the gate reaches no child and changes nothing; inside it, only a missing confirmation or child handle stops it |
| Aggregator.CallRefuses | crates/broker/src/aggregator.rs:291-332 | exactly which refusal a call gets: unknown, not exposed, or not confirmed |
| Aggregator.CallSends | crates/broker/src/aggregator.rs:285-352 | a call hands its request over exactly when it passes the gate, has the confirmation it needs and its server's handle is held; then to that handle, under the tool's own name, and the reply is the result |
| Aggregator.CallFailsClosed | crates/broker/src/aggregator.rs:333-351 | a call stops its server and drops its elevation exactly when the child's reply is an I/O error, an exit or a time-out |
| Aggregator.ReapKeepsInv | crates/broker/src/aggregator.rs:355-370 | reaping keeps the invariant and is idempotent |
| Aggregator.ReapClosesDead | crates/broker/src/aggregator.rs:355-370 | after reaping exactly the names of servers not reaped pass the gate |
| Aggregator.CallTakesOneConfirmation | crates/broker/src/aggregator.rs:317-327 | a confirm call takes exactly one unexpired confirmation of its server and tool or is refused; other calls take none |
| Aggregator.CallWastesConfirmation | crates/broker/src/aggregator.rs:317-332 | a call uses up a confirmation without reaching a child exactly when it passes the gate of a confirm tool, a usable confirmation is held and the server has no child |
| Aggregator.ApprovalAddsOne | crates/broker/src/aggregator.rs:195-202 | approving adds one confirmation, keeps the unexpired ones and drops exactly the expired ones |
| ToolAggregators.ToolAggregator.Build | crates/broker/src/aggregator.rs:133-181 | fails on the first id with a `.`; otherwise one slot per server, stopped and empty where the child failed |
| ToolAggregators.ToolAggregator.ApproveAction | crates/broker/src/aggregator.rs:195-202 | the in-place update is the value-level approval |
| ToolAggregators.ToolAggregator.Stop | crates/broker/src/aggregator.rs:218-223 | sets the state and drops the child handle, or fails with nothing changed |
| ToolAggregators.ToolAggregator.Start | crates/broker/src/aggregator.rs:228-245 | spawns only if no handle is held; an early return changes nothing |
| ToolAggregators.ToolAggregator.AggregatedTools | crates/broker/src/aggregator.rs:258-278 | the nested loops produce the listing that `Listings.ListingIsFaithful` describes |
| ToolAggregators.ToolAggregator.Call | crates/broker/src/aggregator.rs:285-353 | the in-place call is the value-level call: result, request sent, new state |
| ToolAggregators.ToolAggregator.ReapExitedChildren | crates/broker/src/aggregator.rs:361-370 | exactly the slots whose held child is dead are stopped and lose their elevation |
| Handlers.SnapshotsDetectChange | crates/core/src/broker.rs:159-166 | snapshots differ exactly when some server's exposed names differ |
| Handlers.LifecycleNotifiesExactly | crates/broker/src/control_handler.rs:133-153 | a lifecycle command notifies exactly when exposure changes at its reading; a failed one changes nothing |
| Handlers.SetElevationNotifiesExactly | crates/broker/src/control_handler.rs:263-320 | a grant or revocation notifies exactly when exposure changes at its reading |
| Handlers.StartFailsOnlyOnSpawn | crates/broker/src/aggregator.rs:228-245 | `start` of a known server fails exactly when a needed spawn fails |
| Handlers.LifecycleErrors | crates/broker/src/aggregator.rs:207-254 | exactly when a lifecycle command fails and with which error |
| Audit.AuditLog.Record | crates/core/src/audit.rs:116-131 | the ring stays the last 500 entries of the whole history |
| Audit.AuditLog.Recent | crates/core/src/audit.rs:134-141 | returns the last min(k, 500) entries of the whole history |
| Runs.InvAlways | crates/broker/src/aggregator.rs:104-115 | the aggregator invariant holds at every point of every run |
| Runs.StepLights | crates/broker/src/aggregator.rs:207-254 | a step changes state and elevation of one server as its visible outcome says: lifecycle commands never touch an elevation |
| History.ElevationHistory | crates/core/src/broker.rs:77-91 | a server holds an elevation exactly when a step granted it and no grant, revocation or fault on it came since |
| History.StateHistory | crates/core/src/broker.rs:93-97 | a server is in a state exactly when its last lifecycle command or fault put it there |
| History.SlotsFollowHistory | crates/core/src/policy.rs:150-167 | state, elevation, child handle, tools and exposure of every server equal a fold over the trace |
| History.HandleKeptUntilStop | crates/broker/src/aggregator.rs:218-245 | a held handle, and the tools its child was classified with, stay until a stop of the server succeeds |
| History.FaultedChildIsReused | crates/broker/src/aggregator.rs:236 | after a fault, as long as nobody stops the server, a start brings back the very same handle with the same tools |
| History.FaultClosesUntilReopened | crates/broker/src/aggregator.rs:341-349 | after a fault no tool of the server is callable, at any reading, until a start or resume succeeds |
| History.FaultDropsElevation | crates/broker/src/aggregator.rs:341-349 | after a fault the server holds no elevation until one is granted anew |
| History.FaultSparesOthers | crates/broker/src/aggregator.rs:345-348 | a fault leaves every other server's state, elevation, tools and handle as they are |
| WriteAuthority.InflightOrigin | crates/broker/src/control_handler.rs:221-233 | an unapplied submission was verified by its own thread at its own reading and not yet applied |
| WriteAuthority.AcceptedEntry | crates/core/src/elevation.rs:341-377 | an accepted submission consumed a fresh entry of its nonce and client whose exact challenge verified |
| WriteAuthority.AcceptedIsBacked | crates/core/src/elevation.rs:331-378 | behind every accepted submission stand an issue at most 60 seconds earlier and a signature of the registered client for that nonce and purpose |
| WriteAuthority.ReachingCallIsExposed | crates/broker/src/aggregator.rs:295-312 | a call that reaches a child found its server running and its tool read-class or elevated |
| WriteAuthority.WriteCallIsAuthorised | crates/broker/src/control_handler.rs:212-286 | every write or confirm call that reaches a child traces to one standing, backed grant on that server, and a time-boxed one has not run out |
| Confirmations.ApprovalCovers | crates/broker/src/aggregator.rs:317-327 | a confirm call uses an approval of its own server and tool, at most 30 seconds old |
| Confirmations.ApprovalsAreNotShared | crates/broker/src/aggregator.rs:321-324 | different confirm calls use different approvals |
| Confirmations.ConfirmCallIsBacked | crates/broker/src/control_handler.rs:288-303 | a confirm call that reaches a child traces to a consumed, signed confirm nonce for that tool, within 30 and 90 seconds of readings |
| Confirmations.AcceptedAtMostOnce | crates/core/src/elevation.rs:341-348 | with a generator that never repeats, each nonce is accepted at most once in a run |
| Confirmations.ConfirmCallsUseDistinctNonces | crates/core/src/elevation.rs:285-286 | different confirm calls go back to different submissions and different nonces |
| Reach.ConfirmationsFollowTrace | crates/broker/src/aggregator.rs:195-202 | the stored confirmations are, one for one and in order, a fold over events, outcomes and what the trace says of the servers |
| Reach.HeldIsOutstanding | crates/broker/src/aggregator.rs:317-327 | the approvals held are exactly those that no call of the trace has taken and no approval read more than 30 seconds later has dropped |
| Reach.CallReachesExactlyWhen | crates/broker/src/aggregator.rs:285-352 | in every run a call reaches a child exactly when the trace has the server running with a handle and the tool, a grant standing and open unless the tool is read-class, and an approval outstanding and fresh if it is confirm-class |
| Reach.UndeclaredToolIsWrite | crates/core/src/policy.rs:36-48 | in every run a call of a tool the operator never declared is sent where its server runs, holds a handle, offers it and has a grant open, never without a grant, and takes no approval |
| Reach.UnknownNeverReaches | crates/broker/src/aggregator.rs:291-300 | a name without separator or of no server of the manifest reaches no child |
| Staleness.SilentStepShrinks | crates/broker/src/control_handler.rs:133-153 | what a server shows after a step it showed before: at the step's reading if the step controls the server and owes nothing, and at any reading if it does not control it |
| Staleness.StaleListingOnlyShrinks | crates/broker/src/handler.rs:55-61 | if the control steps on a server since a listing are read in order and owe nothing, every name of the server listed now was in the listing; issues, verifications, calls, approvals and commands elsewhere may be read at any time |
| Staleness.ListedNamesAreServers | crates/broker/src/aggregator.rs:258-278 | every listed name is that of a tool of some server of the manifest |
| SilentSteps.SilentRevealExactlyWhen | crates/broker/src/control_handler.rs:133-153 | for every step that does not control the server or owes nothing, readings in any order: exactly when a name of the server is listed after it that a listing before it lacked, by the kind of step |
| SilentSteps.OrderedStepsRevealNothing | crates/broker/src/control_handler.rs:133-153 | with listing, step and later point read in order, never |
| SilentSteps.OwesExactlyWhen | crates/broker/src/control_handler.rs:139-146 | a control step on a server owes a notification exactly when the fold of the trace shows other names after it than before, at its own reading |
| SilentSteps.NothingNewUnlessGuarded | crates/broker/src/handler.rs:55-61 | a listing and any steps after it, readings in any order: if none owes, the listing was up to date and no step meets the guard, nothing new is listed |
| Scenarios.ResumeRevealsSilently | crates/broker/src/control_handler.rs:133-148 | runs in which a resume, read after a window, lists a write tool that a listing lacked, and nothing became owed since |
| Scenarios.GrantRevealsSilently | crates/broker/src/control_handler.rs:252-273 | runs in which a grant, read before a listing, does the same |
| Scenarios.SilentRevealsHappen | crates/broker/src/control_handler.rs:133-273 | both kinds of run exist for every server, tool and client |
| AuditTrail.CallIsAuditedRight | crates/broker/src/handler.rs:76-118 | the entry for a call is that of its outcome under the operator's classification |
| AuditTrail.DenialText | crates/core/src/elevation.rs:165-177 | a refused submission is recorded under its client with the reason in these words |
| AuditTrail.GrantText | crates/broker/src/control_handler.rs:259-281 | a grant is recorded with its client and as `duration` or `until_revoked` by the window it has |
| AuditTrail.WriteIsAuditedExactlyWhenAnswered | crates/broker/src/handler.rs:87-117 | of the calls that reach a child for a tool outside the read class, exactly those answered with a result owe an entry |
| AuditTrail.TapeIsProjection | crates/broker/src/control_handler.rs:228-329 | recorded and owed audit entries are, as a multiset, what the run's outcomes call for |
| AuditTrail.NoticesMatchChanges | crates/broker/src/control_handler.rs:263-276 | notifications sent or owed are, one for one, the control commands that changed exposure |
| AuditTrail.OnlyFaultsChangeSilently | crates/broker/src/aggregator.rs:333-351 | among all steps, exactly the faulting calls change exposure without owing a notification |
| AuditTrail.ExpiryChangesExposure | crates/core/src/policy.rs:122-167 | exactly when the passing of time changes what a server exposes |
| Scenarios.ExpiryIsSilent | crates/core/src/policy.rs:122-131 | runs after which a write tool is listed at one reading and not at a later one, without a step in between |
| Scenarios.FaultIsSilent | crates/broker/src/aggregator.rs:333-351 | runs in which a write call whose child crashes or hangs ends the listing of its tool, owes no notification and leaves no audit entry |
| Scenarios.PrunedIsUnknown | crates/core/src/elevation.rs:339-352 | runs in which an expired nonce, pruned by a later issue, is answered as unknown where a store that never prunes answers expired |
| Scenarios.ApprovalIsWasted | crates/broker/src/aggregator.rs:317-332 | runs of grant, stop, resume, approval and call in which the call takes the confirmation, reaches no child and is refused as unknown |
| Restarts.ColdStartIsReadOnly | crates/core/src/broker.rs:107-111 | a freshly built broker exposes only read tools, at every reading |
| Restarts.StartIsReadOnlyExactlyWhen | crates/broker/src/aggregator.rs:225-245 | `start` leaves a server read-only exactly when no elevation held is open or its tools (those held with its child, else the new listing as classified) are all read tools |
| Restarts.StartIsReadOnlyForEveryListing | crates/broker/src/aggregator.rs:225-245 | where no child is held, `start` is read-only whatever the new child advertises exactly when no elevation held is open |
| Restarts.ResumeIsReadOnlyExactlyWhen | crates/broker/src/aggregator.rs:211-214 | `resume` sets the server running from any state, keeps its elevation, and leaves it read-only exactly when none is open or it has only read tools |
| Scenarios.StartComesUpElevated | crates/broker/src/aggregator.rs:218-245 | runs of grant, stop and start after which a write tool is listed at every reading |
| Progress.HonestSessionReaches | crates/broker/src/control_handler.rs:212-303 | for every server, confirm tool and client there is a run, with no forged signature, in which the call reaches the child |
| RequestHandlers.ControlHandler.Lifecycle | crates/broker/src/control_handler.rs:133-167 | a lifecycle request is one command step and the notification it owes |
| RequestHandlers.ControlHandler.Issue | crates/broker/src/control_handler.rs:198-209 | an issue request is one issue step, answered with the nonce in hexadecimal |
| RequestHandlers.ControlHandler.Submit | crates/broker/src/control_handler.rs:212-250 | malformed input changes nothing, the nonce judged first; otherwise one verify step and one apply step with what they owe |
| RequestHandlers.ReplyMeans | crates/broker/src/control_handler.rs:228-249 | a client hears done exactly when its submission was accepted and an elevation's server is known; else the reason or the unknown id |
| RequestHandlers.ControlHandler.ApplyElevation | crates/broker/src/control_handler.rs:252-286 | the apply step of a grant; an unknown server is an error without an audit entry |
| RequestHandlers.ControlHandler.ApplyConfirm | crates/broker/src/control_handler.rs:288-303 | the apply step of an approval and its audit entry |
| RequestHandlers.ControlHandler.Revoke | crates/broker/src/control_handler.rs:305-329 | a revoke request is one revoke step, its notification and its audit entry |
| RequestHandlers.McpHandler.ToolsList | crates/broker/src/handler.rs:55-61 | returns the listing at its reading, which `Listings.ListingIsFaithful` describes, and changes nothing |
| RequestHandlers.McpHandler.ToolsCall | crates/broker/src/handler.rs:63-119 | a tool call is one call step and the audit entry it owes |
| McpClient.AwaitSound | crates/broker/src/mcp_client.rs:235-269 | a wait takes items in order, skips only blanks and other messages, and returns what the last one taken says, if it carries the id |
| McpClient.WaitEndings | crates/broker/src/mcp_client.rs:235-258 | each ending exactly when it occurs: the answer, a broken stream as I/O error, a line that is no message as protocol error, a vanished reader as exit, and a time-out in every other case |
| McpClient.AnsweredExactlyWhen | crates/broker/src/mcp_client.rs:235-269 | a wait is answered exactly when some poll in time finds a message with the id after items to skip only, and then with what that message says |
| McpClient.StdioMcpClient.Request | crates/broker/src/mcp_client.rs:226-270 | the loop computes the wait for the fresh id, whose endings `McpClient.WaitEndings` gives, and leaves the rest of the channel queued |
| McpClient.StreamInOrder | crates/broker/src/mcp_client.rs:226-270 | over the life of a handle the channel is the child's output less what has been taken from its front |
| McpClient.ResponseBelongsToRequest | crates/broker/src/mcp_client.rs:226-268 | a returned reply is what one message of the child says, under an id with which the broker wrote this very request and no other; no other request takes that message |
| ChildCalls.ReplyBelongsToCall | crates/broker/src/mcp_client.rs:352-357 | in every run, what the handler returns from a reply is what one message says under the id of a `tools/call` with this call's own tool and arguments, and no other call is answered by it |
| ChildCalls.ServedCallFaults | crates/broker/src/mcp_client.rs:239-247 | a call that reaches a child faults, stopping its server without elevation, exactly when its exchange is not answered and meets no line that is no message; a broken stream always does |
| ChildCalls.EveryRunIsServed | crates/broker/src/mcp_client.rs:226-270 | the assumption on a child can be met in every run: some life of it yields all the replies of the run |
| McpClient.ReadLines | crates/broker/src/mcp_client.rs:296-331 | the reader loop frames its input exactly; what its reads buffered, one after the other, is the lines and one last buffer, each at most one byte over the cap |
| McpClient.FramingIsUnique | crates/broker/src/mcp_client.rs:288-295 | for every byte stream at most one list of lines and one ending are an exact framing |
| Sse.SseReader.Read | crates/transport/src/endpoint.rs:140-161 | fills the front of the buffer from the current frame and leaves the rest of the buffer alone |
| Sse.ReadMovesBytes | crates/transport/src/endpoint.rs:140-161 | a read moves bytes from what remains to what is out, and some if there are any and there is room |
| Sse.NotificationBytes | crates/transport/src/endpoint.rs:139-161 | the bytes of a stream with one notification: the connected comment, then its text between `data: ` and a blank line |
| Sse.IdleBytes | crates/transport/src/endpoint.rs:147-154 | the bytes of a stream with one idle wait, and of one without anything |
| Sse.SubscriberGetsMessages | crates/transport/src/endpoint.rs:127-161 | a client that cuts the stream at blank lines and drops comments gets exactly the texts sent, in order, whatever its buffers |
| Sse.DeliveryIsPrefix | crates/transport/src/endpoint.rs:127-161 | whatever the buffer sizes, bytes out followed by bytes remaining are the connected comment and the frames in order |
| Sse.ChunkingIrrelevant | crates/transport/src/endpoint.rs:127-161 | two readers of the same signals see the same bytes as far as the shorter has read |
| Sse.EverythingIsDelivered | crates/transport/src/endpoint.rs:140-161 | with non-empty buffers, as many reads as bytes deliver everything |

## Left out

- Ed25519, the operating system's generator and SHA-256: signature checking is an uninterpreted predicate on key, message and signature, what the generator yields is an input of each issue, and the manifest hash is not modelled.
- Processes, pipes, sockets, HTTP, TLS, files and lock poisoning: foreign calls; a spawn outcome, a child's reply and a clock reading are inputs of the step that uses them, and each lock is one atomic step.
- Parsing of requests, manifests and child messages: the model starts from parsed values. Only the printing of the challenge is modelled in characters.
- Characters: a `char` stands for one byte of UTF-8; `from_utf8_lossy` on a child's lines is not part of this model.
- JSON values: kept in printed form; a tool definition is a map of its members. The text of a protocol error is not kept.
- Manifest.CheckUniqueIds: only the duplicate check of validation; the length bounds, the empty id and command checks and the environment key rules are single-branch facts.
- McpClient.StdioMcpClient.Request: the id counter is unbounded where the source's is 64 bits wide, and the deadline is a finite list of polls, so that the loop ends by its own time limit is not proved.
- McpClient.ResponseBelongsToRequest: a message is recognised by its id alone, as in the source; a request that a child sends under the same id counts as an answer.
- ChildCalls.ReplyBelongsToCall: reading a child's listing out of its `tools/list` answer, and the notification after the handshake, are not modelled.
- McpClient.ReadLines: the receiver going away is a bound on the lines it takes.
- ToolAggregators.ToolAggregator.ReapExitedChildren: no handler calls it, so it is not a step of a run.
- RequestHandlers.ControlHandler.Submit: proved for a submission that runs without interruption; interleaved submissions are those of `Runs`. The same holds for the other requests.
- The notifier's list of subscribers: only the number of broadcasts is kept.
- The request log, `status`, `list`, `logs`, message texts, wall-clock stamps on audit entries and the audit file: thin wrappers.
- `request_elevation` and `request_confirm`: they build the purpose that an issue step takes as input.
- `ClientRegistry::register`: the registry is fixed for a run.
- `BrokerState::from_manifest` and `elevation_count`: the live path builds slots from what children advertise.
- The mail server, the command line, configuration, platform seams and bearer tokens: separate crates or single checks.
