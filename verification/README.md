# The durable connection registry and its neighbours, in Dafny

This project models the parts of the repository whose correctness does not show in any one
function body, and proves what they promise:

* **The lock** of the connection registry (`LockFile`, `LockProtocol`, `LockDanger`): any number of processes
  write claim files, hard-link them to the lock path, inspect, break and release locks, one
  file-system call per step, with crashes at any point.
* **The strict JSON parser and writer** (`JsonGrammar`, `StrictParser`, `StrictComplete`,
  `StrictJson`, `JsonText`): the class with its index and depth, proved against the grammar of
  RFC 8259 sections 2 to 7, and the round trip with `JSON.stringify`.
* **The document normaliser** (`Objects`, `Platform`, `PolicyBinding`, `Billing`, `Records`,
  `RegistryDocument`): for each entity there is a validity predicate, a relation that says which
  JSON values present it, and a lemma that the parser accepts exactly the presentations of valid
  entities.
* **Commits and migration** (`Migration`, `MigrationWitness`, `RegistryStore`, `StoreSafety`,
  `StoreTheorems`, `StoreWitness`, `RegistryRuns`): a step system on top of the lock in which every file-system call
  can fail and every process can crash.  It is proved once for any format that satisfies three
  laws; `RegistryRuns` proves the laws for the registry document.
* **The loops** around an open file (`FileLoops`).
* **The lifecycle operations** (`Edits`, `Lifecycle`, `LifecycleRuns`): what they change, that the
  change always passes revalidation, the bounded retry, and that the commits of the step system
  keep the contract under which the operations use them.
* **Six smaller cores**: the MCP line framer (`McpFramer`), the MCP per-key queue (`McpQueue`), the
  lifecycle hook sink (`HookQueue`), the secret scanners (`SecretScan`), the editor command
  tokenizer (`EditorCommand`) and the provider usage policy (`UsagePolicy`).

Concurrency is modelled as state and one-step functions: an event carries every choice that the
scheduler, the file system and the clock make, a run is a sequence of events, and the results are
about all runs.  Code that moves through a buffer or fills a result in a loop is a class or a
method with that loop, proved against a specification function about which the lemmas are stated.

## Assumptions

* Inode numbers are never reused, `link`, `rename` and `unlink` are atomic, and `processIsAlive`
  never reports a live process as dead.
* No break of a stale lock unlinks a lock that is held, that is, one whose owner is a live attempt on
  its way in, inside, or about to unlink it: the predicate `SafeBreaks`, a hypothesis of the results
  about runs.  It follows if the stat and the unlink of `unlinkIfSame` act as one step
  (`AtomicBreaks`; `LockProtocol.AtomicBreaksAreSafe`), and mutual exclusion is endangered exactly
  where it fails (`LockDanger.SafeBreaksExact`).  The code guarantees neither:
  `LockProtocol.SplitBreakWitness` is a run that lets two attempts in.  The owner's own release is
  left as two steps and needs no assumption.
* Only the registry writes to its own files.
* Reactions to a settled promise run in the order in which they were registered, so that the `emit`
  calls of the hook sink resume in the order of their deliveries.
* What comes from the language runtime or from other packages (Unicode categories, `trim`,
  `Date.parse`, URL normalisation, `localeCompare`, the two secret tests as the normaliser uses them)
  is the record `Platform` of total functions, about which nothing is assumed, except that
  `UsagePolicy` takes `localeCompare` to be a strict order on ids.

## Where the code does not do what one might expect

* A failed lock acquisition leaves its claim file behind when it fails before the claim's identity
  has been read (`LockProtocol.FailedAcquireLeftovers` gives the exact condition,
  `LockProtocol.LeakedClaimWitness` a run).
* In the MCP queue, a newest waiter that is aborted deletes the tail entry even if an earlier call is
  still waiting or running, and a later call then runs beside that one (`McpQueue.ImpatientWitness`).
  `McpQueue.DangerExact` and `McpQueue.PatientExact` say that this is the only way, and that it
  always is one; the other results about the queue hold for every run without such an abort.
* `createProviderPolicyBinding` compares ids sorted with `localeCompare` against ids sorted by code
  unit.  Where the two orders differ on the required ids, even complete claims are refused
  (`UsagePolicy.OrdersMayDisagree`; `UsagePolicy.BindingExact` has the condition).
* A legacy record is refused for ever when its base URL looks like a secret only after it has been
  normalised (`MigrationWitness.LateSecretWitness` is such a record, `RegistryRuns.SecretLegacyIsStuck`
  the result about runs).

## Model

| member | source | states |
|---|---|---|
| LockFile.RoundTrip | packages/app/src/connection-registry-io.ts:350-371 | Reading the bytes that `#acquireLock` writes into a claim gives back its process id, token and creation time, for every valid metadata. |
| LockFile.JsonLineReadsBack | packages/app/src/connection-registry-io.ts:350-371 | The actual file format meets what the lock protocol asks of any format: what a claim's writer writes, an inspection reads back. |
| LockProtocol.MutualExclusion | packages/app/src/connection-registry-io.ts:598-709 | In every run of any number of attempts, crashes and stale breaks in which no break unlinks a lock that is held, at most one live attempt is inside a transaction. |
| LockProtocol.AtomicBreaksAreSafe | packages/app/src/connection-registry-io.ts:315-329 | If the stat and the unlink of `unlinkIfSame` act as one step throughout a run, no break in it unlinks a lock that is held. |
| LockProtocol.StepExact | packages/app/src/connection-registry-io.ts:598-709 | A step keeps the lock invariant if and only if it is not the unlink, by a stale break, of a lock that is held. |
| LockProtocol.LockPathIsComplete | packages/app/src/connection-registry-io.ts:617-646 | Whatever the lock path names holds complete metadata, and parsing it names the attempt that linked it, which is past its link. |
| LockProtocol.BreakRemovesDeadLock | packages/app/src/connection-registry-io.ts:681-693 | With an atomic `unlinkIfSame`, a stale break only ever unlinks the lock of an attempt whose process has crashed. |
| LockProtocol.FailedAcquireLeftovers | packages/app/src/connection-registry-io.ts:617-709 | With an atomic `unlinkIfSame`, after a failed acquisition the claim file is there if and only if the failure came before the claim's identity was read or its unlink failed; a lock entry stays only if undoing the link failed. |
| LockProtocol.LeakedClaimWitness | packages/app/src/connection-registry-io.ts:617-632 | A run after which a failed attempt has left its claim file behind although no unlink failed. |
| LockProtocol.StuckLockWitness | packages/app/src/connection-registry-io.ts:633-672 | A run after which a failed attempt of a live process has left its lock in place, because undoing the link failed. |
| LockProtocol.ReleaseUnlinksOwnLock | packages/app/src/connection-registry-io.ts:648-663 | When a release reaches its unlink, the lock path still names its own claim, although stat and unlink are two steps. |
| LockDanger.HeldUnlinkAdmitsTwo | packages/app/src/connection-registry-io.ts:315-329 | From any state in which a break unlinks a lock that is held, whether its owner is on the way in, inside or about to unlink it, two attempts can come to be inside without another such unlink. |
| LockDanger.DangerExact | packages/app/src/connection-registry-io.ts:598-709 | After a step some continuation without such unlinks has two attempts inside, if and only if the step was one. |
| LockDanger.SafeBreaksExact | packages/app/src/connection-registry-io.ts:598-709 | For every run: it has no such unlink if and only if at no point of it such a continuation exists. |
| LockProtocol.SplitBreakWitness | packages/app/src/connection-registry-io.ts:315-329 | A run from the initial state, with the stat and the unlink of a break as two steps, after which two live attempts are inside. |
| StrictComplete.StrictParserExact | packages/app/src/connection-registry-model.ts:240-363 | The parser returns a value for a text if and only if the text is RFC 8259 JSON that spells the value, nested at most 32 deep counting scalars, with finite numbers and no repeated decoded member name. |
| StrictJson.ParseStrictJson | packages/app/src/connection-registry-model.ts:366-374 | The imperative parser terminates on every text and decides that same relation. |
| StrictJson.StrictJsonParser.Parse | packages/app/src/connection-registry-model.ts:240-246 | Computes the specified value of the whole text and leaves the depth as it was, on success and on failure. |
| StrictJson.StrictJsonParser.Value | packages/app/src/connection-registry-model.ts:248-267 | Reads the value at the index as specified, moves the index behind it, restores the depth on every path. |
| StrictJson.StrictJsonParser.Object | packages/app/src/connection-registry-model.ts:269-295 | The member loop with its key set computes the specified object, refusing the first repeated name. |
| StrictJson.StrictJsonParser.Array | packages/app/src/connection-registry-model.ts:297-314 | The item loop computes the specified array. |
| StrictJson.StrictJsonParser.String | packages/app/src/connection-registry-model.ts:316-333 | The scan for the closing quote and the decoding compute the specified string. |
| StrictComplete.NumberExact | packages/app/src/connection-registry-model.ts:343-352 | The parser reads a number up to a point if and only if it stands there and no number that starts at the same place ends later. |
| JsonText.StringifyRoundTrip | packages/app/src/connection-registry-model.ts:1107-1113 | The strict parser reads back every value that `JSON.stringify` writes, with any white-space indent: quotes, backslashes, control characters and lone surrogates included. |
| JsonText.StringifyIsWellFormed | packages/app/src/connection-registry-model.ts:1107-1113 | What `JSON.stringify` writes has no lone surrogate, so encoding it as UTF-8 loses nothing. |
| Objects.ObjectExact | packages/app/src/connection-registry-model.ts:376-388 | An object literal passes the exact-key test whenever only optional members are left out, and each member reads back as written. |
| PolicyBinding.BindingExact | packages/app/src/connection-registry-model.ts:134-172 | The binding parser accepts exactly the presentations of bindings with at most 32 valid claims, different ids in ascending order and a canonical time, and returns the binding presented. |
| Billing.ReadUniqueWords | packages/app/src/connection-registry-model.ts:449-469 | The loop with its `seen` set reads exactly the arrays of known words without repetition. |
| Billing.FewSources | packages/app/src/connection-registry-model.ts:449-469 | A list of sources without repetition has at most five, so the length limit of the array never decides. |
| Billing.PolicyExact | packages/app/src/connection-registry-model.ts:471-535 | The policy parser accepts exactly the presentations of policies whose payers, fallback and choices agree. |
| Billing.SelectionsByFallback | packages/app/src/connection-registry-model.ts:504-524 | The rejections come to this: no fallback means only the strict choice; a user-configured one always offers the declared sources and never the provider default; an automatic one never offers the strict choice. |
| Billing.AcceptableExact | packages/app/src/connection-registry-model.ts:571-591 | The tests on the allowed sources accept exactly the permutations of what the chosen mode may charge. |
| Billing.SelectionExact | packages/app/src/connection-registry-model.ts:537-602 | Under an accepted policy, the selection parser accepts exactly the presentations of selections the policy offers, sources in any order, and returns them in policy order. |
| Billing.ChargedWasDeclared | packages/app/src/connection-registry-model.ts:537-602 | Any source that may be charged besides the primary was declared, the mode is not the strict one, and the fallback was configured or automatic. |
| Records.LocalExact | packages/app/src/connection-registry-model.ts:604-645 | The local parser accepts exactly the presentations of valid local records and returns the record presented. |
| Records.LimitsExact | packages/app/src/connection-registry-model.ts:833-861 | The same for verified model limits: positive safe integers, output possibly null. |
| Records.TermsExact | packages/app/src/connection-registry-model.ts:670-690 | The same for billing and dates: everything lies between creation and last update. |
| Records.RecordExact | packages/app/src/connection-registry-model.ts:647-914 | For all three kinds of record: from a value without secrets, the parser returns a record if and only if it is valid and the value has exactly its members, in any order. |
| Records.RecordPrints | packages/app/src/connection-registry-model.ts:631-644 | A valid record written in the parsers' member order presents itself. |
| Records.RecordClean | packages/app/src/connection-registry-model.ts:390-404 | A record read from a value without secrets is written without secrets. |
| RegistryDocument.DocumentExact | packages/app/src/connection-registry-model.ts:916-997 | The normaliser returns a document if and only if the value holds no secret, presents the document in version 1 or 2, and the document is valid. |
| RegistryDocument.NormaliserIsIdempotent | packages/app/src/connection-registry-model.ts:916-997 | What the normaliser returns for any accepted value it accepts again unchanged, exactly when the document's own member names are permitted. |
| RegistryDocument.StoredDocumentsAreFixed | packages/app/src/connection-registry-model.ts:916-997 | A document is a fixed point of the normaliser if and only if it is valid and free of secrets. |
| RegistryDocument.SerializeRoundTrip | packages/app/src/connection-registry-model.ts:1107-1113 | For every valid document within the size limit, strict parsing and normalising of its serialisation give it back. |
| RegistryDocument.NextDocumentExact | packages/app/src/connection-registry-model.ts:1093-1105 | Whatever value a mutation proposes, the next document is exactly the valid document the proposal presents, one revision later, with the current routes where none are proposed. |
| RegistryDocument.NextDocumentIsValid | packages/app/src/connection-registry-model.ts:1093-1105 | Any accepted next document is valid, storable, and one revision later within the bound. |
| RegistryDocument.DraftExact | packages/app/src/connection-registry.ts:81-92 | A draft is accepted as it is if and only if it is valid one revision later. |
| Migration.LegacyExact | packages/app/src/connection-registry-model.ts:999-1033 | The legacy parser accepts exactly the legacy forms of valid local records, with the base URL normalised. |
| Migration.SameTextExact | packages/app/src/connection-registry.ts:116-121 | Comparing the serialised records decides their equality. |
| Migration.SettledExact | packages/app/src/connection-registry.ts:105-128 | A migration has nothing to write if and only if the record is in the document and a primary is set. |
| Migration.MigrationSettles | packages/app/src/connection-registry.ts:105-128 | What a migration writes is the document with the record added and a primary set, and a second migration finds nothing to write in it. |
| Migration.MigrationAcceptedExactly | packages/app/src/connection-registry.ts:105-128 | A migration with something to write is refused if and only if the revision or the number of connections is at its maximum, the record to add holds a secret, or the document would be longer than the limit. |
| MigrationWitness.LateSecretWitness | packages/app/src/connection-registry-model.ts:999-1033 | A legacy object without a secret that parses to a record with one, because its base URL is normalised in between; the registry refuses it on top of any valid document. |
| FileLoops.FileHandle.Write | packages/app/src/connection-registry-io.ts:226-231 | A write may append any prefix of what it is asked to append, and may fail. |
| FileLoops.FileHandle.Read | packages/app/src/connection-registry-io.ts:213-215 | A read delivers any non-empty piece of the rest, or nothing at the end, and may fail. |
| FileLoops.WriteFully | packages/app/src/connection-registry-io.ts:223-235 | Under every schedule of short writes it succeeds unless a write fails or writes nothing, and success means exactly the given bytes were appended. |
| FileLoops.ReadBounded | packages/app/src/connection-registry-io.ts:204-221 | Under every schedule of short reads it returns the whole rest of the file when that is within the limit and reports too long otherwise. |
| StoreSafety.LockKeepsInv | packages/app/src/connection-registry-io.ts:478-522 | Lock events of any attempt keep the store invariant. |
| StoreSafety.BodyKeepsInv | packages/app/src/connection-registry-io.ts:237-329 | Every step of every client, failing ones included, keeps the store invariant. |
| StoreSafety.OneEngaged | packages/app/src/connection-registry-io.ts:478-522 | No two clients are inside a transaction. |
| StoreSafety.UnlinkStep | packages/app/src/connection-registry-io.ts:502-513 | When the legacy file is unlinked, the document current at that moment has its record and a primary connection. |
| StoreTheorems.FileIsFoldOfCommits | packages/app/src/connection-registry.ts:66-95 | In every run the stored document is the fold of all installed proposals over the first document, each adding one to the revision. |
| StoreTheorems.CommitsLoseNoUpdate | packages/app/src/connection-registry.ts:66-95 | A successful commit installed exactly one document, made by its proposal from the document current at that point, whose revision was the expected one, and returned it. |
| StoreTheorems.RefusalsInstallNothing | packages/app/src/connection-registry.ts:71-94 | A client that meets a conflict or a refusal, or fails before its rename, has installed nothing. |
| StoreTheorems.ConflictsAreReal | packages/app/src/connection-registry.ts:71-80 | A conflict is reported only if the expected revision cannot be one or some stored document was not at it. |
| StoreTheorems.InstallsAtMostOnce | packages/app/src/connection-registry-io.ts:538-596 | Every operation installs at most one document, and a failed one installs one only if it failed after its rename. |
| StoreTheorems.InstallIsAtomic | packages/app/src/connection-registry-io.ts:538-596 | At every point of every run the registry file is the original one or holds the complete serialisation of the document installed last. |
| StoreTheorems.OnlyRenameInstalls | packages/app/src/connection-registry-io.ts:579-586 | Only a rename changes what the registry file says, and then to the complete text of the job. |
| StoreTheorems.TempsAreRemoved | packages/app/src/connection-registry-io.ts:591-595 | A temporary file is left only by a write that failed or crashed. |
| StoreTheorems.OperationsAreLinear | packages/app/src/connection-registry.ts:54-95 | Every successful read, commit, migration and unlocked inspection returns a document that was the stored one at some point between its submission and its return. |
| StoreTheorems.UnlinkFindsRecord | packages/app/src/connection-registry.ts:97-132 | In every run, at every step that unlinks the legacy file, what the registry file says at that moment has the record and a primary connection. |
| StoreTheorems.LegacyRecordIsKept | packages/app/src/connection-registry.ts:97-132 | In every run the legacy file is untouched, or the run has an event that unlinked it, and the registry file had its record and a primary just before that event. |
| StoreTheorems.MigrationsKeepRecord | packages/app/src/connection-registry.ts:97-132 | While no commit is submitted, at every point of every run the legacy file is there or the registry file has its record and a primary. |
| StoreTheorems.MigrationWritesOnce | packages/app/src/connection-registry.ts:97-132 | However often migrations run, crash and run again, they install at most one document in total, and each that succeeds returns what one uninterrupted migration would have left. |
| StoreTheorems.AtomicBreaksReach | packages/app/src/connection-registry-io.ts:315-329 | Runs in which `unlinkIfSame` is atomic are among those the results about the store range over. |
| StoreWitness.CommitCanSucceed | packages/app/src/connection-registry-io.ts:538-596 | An undisturbed commit at the stored revision with an acceptable proposal has a run to success, after which the file holds the next document. |
| RegistryRuns.RegistryIsLawful | packages/app/src/connection-registry-io.ts:280-295 | The registry format satisfies the three laws: what is installed reads back, revisions count, and a migration settles. |
| RegistryRuns.StoredDocumentsAreValid | packages/app/src/connection-registry.ts:81-131 | For arbitrary mutation callbacks, every document installed in any run is valid. |
| RegistryRuns.SecretLegacyIsStuck | packages/app/src/connection-registry.ts:97-132 | If the record read from the legacy file holds a secret, then in no run does a migration succeed, and the legacy file stays. |
| Edits.DisconnectFrame | packages/app/src/connection-lifecycle.ts:379-406 | A disconnection removes exactly the one record, keeps the order of the others, and clears exactly the references to it. |
| Edits.SetRoutesFrame | packages/app/src/connection-lifecycle.ts:528-547 | Setting routes changes exactly the roles asked for, to what was asked for. |
| Edits.EditIsAccepted | packages/app/src/connection-lifecycle.ts:340-345 | From any valid document the draft of every lifecycle operation passes revalidation unchanged if and only if the revision can still be raised. |
| Lifecycle.Registry.Commit | packages/app/src/connection-registry.ts:66-95 | The commit as one user sees it among others: conflict, refusal, failure before or after the install, or exactly the revalidated edit of the document found. |
| Lifecycle.Perform | packages/app/src/connection-lifecycle.ts:322-425 | In every interleaving: at most three commits, at most one install, retry only after a conflict; success means the edit was applied, whole and alone, to the document read. |
| Edits.ReadAssignments | packages/app/src/connection-lifecycle.ts:477-491 | The loop that fills the map of requested roles refuses exactly unknown and repeated roles. |
| Lifecycle.SetAgentRoutes | packages/app/src/connection-lifecycle.ts:472-565 | An invalid or empty request never touches the registry; success answers with exactly the routes asked for, and the document has them and nothing else changed. |
| LifecycleRuns.CommitKeepsContract | packages/app/src/connection-registry.ts:66-95 | The contract under which the lifecycle operations use `commit` holds of every commit in every run of the step system. |
| LifecycleRuns.InterferenceRaisesRevision | packages/app/src/connection-registry.ts:66-95 | Whatever others install in between is a valid document of a higher revision. |
| McpFramer.LinesAndRest | packages/cli/src/mcp-protocol.ts:40-49 | Cutting a stream into complete lines and a rest loses nothing. |
| McpFramer.FrameMeaning | packages/cli/src/mcp-protocol.ts:34-55 | The messages delivered are the decoded complete lines before the first over-long or undecodable one; failure and leftover buffer accordingly. |
| McpFramer.ChunkingIndependent | packages/cli/src/mcp-protocol.ts:34-55 | For every stream and every way to cut it, messages, failure and buffer depend on the concatenation only. |
| McpFramer.OwnedStdioTransport.Data | packages/cli/src/mcp-protocol.ts:35-55 | The data handler does to the transport's fields exactly what the specification says, and nothing after the close. |
| McpQueue.StepExact | packages/cli/src/mcp-client.ts:1217-1250 | A step keeps the invariant of the chain of tails if and only if it is not a newest call settling while an earlier one still waits or runs. |
| McpQueue.OneBodyAtATime | packages/cli/src/mcp-client.ts:1217-1250 | In every run without such a settle, at most one body of a key runs at a time; waiters in the middle abort freely. |
| McpQueue.BodiesStartInArrivalOrder | packages/cli/src/mcp-client.ts:1217-1250 | In those runs the bodies of a key begin in arrival order, each at most once. |
| McpQueue.PrematureSettleAdmitsTwo | packages/cli/src/mcp-client.ts:1245-1249 | From any such settle on, with the earlier call waiting or running, there are events without another one after which two bodies of the key run. |
| McpQueue.DangerExact | packages/cli/src/mcp-client.ts:1217-1250 | After a step some continuation without such settles has two bodies of one key running, if and only if the step was one. |
| McpQueue.PatientExact | packages/cli/src/mcp-client.ts:1217-1250 | For every run: it has no such settle if and only if at no point of it such a continuation exists. |
| McpQueue.ImpatientWitness | packages/cli/src/mcp-client.ts:1245-1249 | A run from the start after which two bodies of one key are running. |
| HookQueue.PendingIsBounded | packages/cli/src/lifecycle-hooks.ts:494-517 | In every run the pending count is the number of accepted unfinished events, and at most 64. |
| HookQueue.ResultsAreInOrder | packages/cli/src/lifecycle-hooks.ts:456-492 | In every run, aborts and failures included, the results are those of accepted events in the order in which the events were emitted, within an event in configuration order, none twice. |
| HookQueue.EveryEventIsTaken | packages/cli/src/lifecycle-hooks.ts:494-517 | Before the close, every event that a hook matches and that was delivered is accepted or refused, and none is refused before 64 were accepted. |
| HookQueue.EveryHookReports | packages/cli/src/lifecycle-hooks.ts:456-517 | While downstream accepts and nothing is aborted, every finished event has exactly one result for each matching hook. |
| HookQueue.RefusedEventsReport | packages/cli/src/lifecycle-hooks.ts:502-509 | An event refused for lack of room has one failed result for each matching hook, in emission order. |
| HookQueue.ResultsFollowTheirEvent | packages/cli/src/lifecycle-hooks.ts:431-435 | Every result is sent after the event it is about. |
| HookQueue.CloseWaitsForAll | packages/cli/src/lifecycle-hooks.ts:519-530 | `close` resolves only when every accepted event is finished and all its results are delivered. |
| HookQueue.EventsStayInBudget | packages/cli/src/lifecycle-hooks.ts:184-213 | Under a configuration that the parser accepts, the hooks that any accepted event runs, one after the other, reserve at most the budget for one event. |
| SecretScan.IsAssigned | packages/app/src/non-secret-policy.ts:16-33 | The binary search returns true if and only if the code point lies in one of the ascending disjoint ranges. |
| SecretScan.HasPrivateKeyMarker | packages/app/src/non-secret-policy.ts:71-94 | True if and only if somewhere a begin is followed by the suffix, or by capitals, the separator and the suffix; overlapping begins included. |
| SecretScan.HasPrefixedToken | packages/app/src/non-secret-policy.ts:96-116 | True if and only if some prefix occurs with enough token characters behind it, overlapping occurrences included. |
| SecretScan.IsAuthorization | packages/app/src/non-secret-policy.ts:135-164 | True if and only if the value is a known scheme, white space, and a long enough payload without white space. |
| EditorCommand.ParseEditorCommand | packages/cli/src/company-proposal-editor.ts:80-145 | The loop over its five variables computes the specified tokens or refusal. |
| EditorCommand.RenderRoundTrip | packages/cli/src/company-proposal-editor.ts:80-145 | The tokenizer gives back every token list rendered in single quotes, empty arguments and embedded quotes included, exactly when it fits the bounds, and refuses it otherwise. |
| EditorCommand.RenderUnits | packages/cli/src/company-proposal-editor.ts:81-84 | A rendering contains a zero or a line end only if a token does. |
| UsagePolicy.DecisionDependsOnRequired | packages/app/src/provider-usage-policy.ts:24-82 | The decision is the same for any two sets of claims that agree on the required ids. |
| UsagePolicy.CheckClaims | packages/app/src/provider-usage-policy.ts:103-110 | The loop with its `seen` set accepts exactly well-formed ids without repetition. |
| UsagePolicy.SameListsExact | packages/app/src/provider-usage-policy.ts:110-117 | The sorted id lists are equal if and only if the claims are exactly the required ones and the two sort orders agree on them. |
| UsagePolicy.BindingExact | packages/app/src/provider-usage-policy.ts:84-130 | A binding is made if and only if there are rules and a context, the ids are well-formed, different and exactly the required ones, the two orders agree on them, and the policy allows the run. |
| UsagePolicy.BindingIsCanonical | packages/app/src/provider-usage-policy.ts:103-122 | A binding that is made holds exactly the given claims, with different ids in the ascending order that the registry demands of a stored binding. |
| UsagePolicy.OrdersMayDisagree | packages/app/src/provider-usage-policy.ts:110-117 | With two ids that the two orders sort differently, complete claims that the policy allows are refused. |

## Left out

- JsonGrammar.NumberValue: keeps the exact decimal value of a number; rounding to the nearest double is not modelled, only the bound from which it is infinite.
- LockProtocol.MutualExclusion: assumes that no break unlinks a lock that is held, which the code does not guarantee (see Assumptions). It states safety only: no attempt is shown to get the lock, because the deadline check is skipped whenever the lock vanishes during an inspection.
- StoreTheorems.OperationsAreLinear: says what the body of a transaction returns; a failing release of the lock turns a success into an error for the caller, after the body is done.
- StoreTheorems.InstallIsAtomic: says what a later reader sees after a process crash; what a power failure does to unsynced writes is not modelled, so `sync` is a step that can only fail.
- SecretScan.HasPrivateKeyMarker: takes the begin, suffix and separator as parameters, with a separator that does not begin with a capital, as the generated constants have it.
- HookQueue.EveryHookReports: a hook's run is one nondeterministic outcome; processes and the shutdown timer are not modelled. Of the hook configuration only the number of hooks, their ids and their time limits are.
- EditorCommand.ParseEditorCommand: goes through code units where the source goes through code points; no surrogate is a quote, a backslash or white space, so the tokens are the same.
- Permission bits, ownership, link counts, symbolic links and directory identity checks: one nondeterministic failure of the call they guard.
- Lock deadlines, poll delays, age thresholds and abort signals: nondeterministic choices of the event.
- UTF-8 decoding and its optional byte order mark: files hold code units, lengths in bytes are computed.
- Values a mutation callback can build that are not JSON (functions, getters, cycles): proposals range over all JSON objects with any member missing.
- The order in which the validators raise their one error, and error messages, causes and their mapping to lifecycle errors.
- `openConfigDirectory`, `list`, `verify` and the connection summaries; onboarding flows; the hexadecimal, JWT and entropy tests of the secret policy and its key normalisation; the generated tables.
- MCP sessions, the client's other maps, reconnection and the message decoder, which is any partial function.
- The remaining packages of the repository.
