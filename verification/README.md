# Stele: a verified model

Stele is a ledger around untrusted document parsers. It stages a parser's input, stores
everything by digest, records each run in a ledger whose tables are backed by a hash-chained
event log, delivers a sealed record's chunks to target stores, and signs off parser versions
by comparing whole campaigns of runs. This project models the parts of it whose correctness
is hardest to see and proves what the repository promises of them.

| module | models |
|---|---|
| Seccomp | the seccomp filter compiler, against an interpreter for classic BPF |
| Chunks, Delivery | adapter output, and what a delivery's event log claims of its target |
| Digests, EventChain, Ledger, LedgerView, LedgerStore | the ledger's tables, transactions, hash chain, verifier and migration |
| DeliveryProtocol, DeliverySafety, DeliveryTheorems, DeliveryConvergence, DeliveryWindows, DeliveryWitness | concurrent dispatch, invalidation and removal over one log and one target |
| ChatTree | the iterative walk over a ChatGPT conversation tree |
| Refs, Utf8, Seqs | typed references, percent-encoding, UTF-8, splitting and sorting |
| TreeCodec | tree objects and writing a tree out |
| Readdir | directory paging in the Wasm backend |
| Publish, PublishSafety, PublishDurability, TreeObjects | publishing into the evidence store, inode by inode, and what a power failure takes |
| Markdown, Extraction, Resolver, Normalize, ConversationNames, NormalizeChat | block splitting, the normalizers and the trusted resolver |
| Journal, Campaign | the crash-resumable journal, and campaigns of many runs over it |
| Policy | the JSON tolerance comparison |
| Report, ReportClaims | the verification report and its gates |

A digest is a free constructor over the content it was computed from, so equal digests mean
equal content and no collision assumption appears anywhere. Objects the program updates in
place are classes (`LedgerDatabase`, `BundleResolver`, `Run`, `Journal`, `RecordChecker`);
its loops are methods with loops. The two concurrent parts are step machines over values:
any number of processes interleave operation by operation and may crash between any two.

## What the theorems found

Some properties one would expect are false of the code. Each is stated with an input or a run
that shows it and its exact condition.

- A removal logs its receipt after the writer's removal call returned. A write that lands in
  between, and whose outcome is logged first, is cleared from the log's claim although its data
  stays (`DeliveryWitness.OverlapHidesData`). The history of a run tells what each receipt hides,
  and where the log claims nothing the target holds exactly that
  (`DeliveryWindows.LogSoundnessIff`, `DeliveryWindows.ReceiptIsSoundIff`).
- The ledger verifier compares only some columns of a record with the chain, although the chain
  commits to more (`LedgerView.EditUnreportedIff`, `LedgerView.UncoveredColumns`).
- `EventLog.verify` documents that it requires the chain to contain the anchor. It accepts an
  anchor numbered below 1 on any non-empty intact chain (`EventChain.EarlyAnchorIsIgnored`), and
  keeps its word exactly for the anchors numbered 1 or more (`EventChain.AnchorIsRequiredIff`).
- An unclosed code fence over a single underline is classed as a heading
  (`Markdown.UnclosedFenceIsAHeading`); a fenced block is code in every other case
  (`Markdown.FencedKind`).
- The report tells runs apart by a formatted text. One record can stand for two runs in a passing
  report (`ReportClaims.OneRecordForTwoRuns`), exactly when the corpus and the lanes hold two runs
  whose texts coincide, on one backend and with one document hash
  (`ReportClaims.OneRecordTwiceIff`).
- The numbered suffix on repeated conversation ids does not make them unique
  (`ConversationNames.NamesCanCollide`); it does exactly when no listed id looks like a later copy
  of another (`ConversationNames.NamesDistinctIff`). Parents are right all the same
  (`NormalizeChat.AddConversation`).
- A writer that finds a blob already linked does not wait for its directory to be synced, so a
  power failure can leave a snapshot record without its blob
  (`PublishDurability.RecordOutlivesItsBlob`); `PublishDurability.PowerLossIsHarmlessIff` says
  exactly when it cannot. Nor is a finished, quiet store safe: nothing syncs the directory of a
  snapshot kind into its parent, so a power failure can take every record of that kind
  (`PublishDurability.RecordAtRestCanGo`); `PublishDurability.AtRestIsDurableIff` says exactly
  what is durable then.

## Model

| member | source | states |
|---|---|---|
| Seccomp.AcceptedReturns | stele/containment/seccomp.py:183-229 | A program whose jumps stay inside it and whose last instruction returns halts at a return on every call, whatever the accumulator: no input runs off the end or loops. |
| Seccomp.Sequence | stele/containment/seccomp.py:163-168 | Running two fragments one after the other is running the first and continuing with the second wherever it fell through, so jumps may be relative and fragments independent. |
| Seccomp.PrologueBlock | stele/containment/seccomp.py:183-189 | The first block kills every call of a foreign ABI and otherwise leaves the call number loaded. |
| Seccomp.MaskIsTheFlags | stele/containment/seccomp.py:72-75 | The one-instruction bit test on the mask is true exactly when one of the seven namespace flags is set. |
| Seccomp.RulesMeanTheLists | stele/containment/seccomp.py:196-204 | First match over the ordered rule list is membership in the kill list, then in the ENOSYS list. |
| Seccomp.CloneBlockRuns | stele/containment/seccomp.py:206-213 | The clone block kills exactly the clone calls that ask for a namespace and lets other calls through unchanged. |
| Seccomp.IoctlBlockRuns | stele/containment/seccomp.py:215-227 | The ioctl block refuses exactly the listed commands, judged by the low word of the second argument. |
| Seccomp.Compile | stele/containment/seccomp.py:171-230 | For every rule table the emitted program, run on every 32-bit ABI word, call number and argument words, returns exactly the documented policy's verdict, and its jumps fit 8 bits and stay in the program. |
| Seccomp.PackInsnInverts | stele/containment/seccomp.py:230-230 | Eight packed bytes read back as the instruction they were packed from. |
| Seccomp.Pack | stele/containment/seccomp.py:230-230 | The whole packed byte string reads back as the program, nothing lost or truncated. |
| Seccomp.NumbersDistinct | stele/containment/seccomp.py:110-146 | On each architecture no two named calls share a number, so no rule shadows another. |
| Seccomp.KilledCallsAreTheKills | stele/containment/seccomp.py:84-105 | The kill list holds exactly the calls of the class that kills. |
| Seccomp.EnosysCallsAreTheEnosys | stele/containment/seccomp.py:107-108 | The ENOSYS list holds exactly the calls that are refused softly. |
| Seccomp.PolicyByName | stele/containment/seccomp.py:78-108 | On a native call the policy, read by call name: kill-listed calls kill, ENOSYS-listed calls fail softly, clone and ioctl are inspected, every other number is allowed. |
| Seccomp.BuildFilter | stele/containment/seccomp.py:171-230 | Succeeds exactly for the supported machine names; the bytes decode to a program that implements that architecture's policy on every call. |
| Chunks.ValidateChunks | stele/contracts/adapter.py:148-186 | Reports no violation exactly for a non-empty chunk list with distinct non-empty ids, honest content hashes and object metadata. |
| Chunks.DigestDeterminesChunks | stele/ledger/delivery.py:190-207 | Two valid chunk lists with one digest are the same list: ids, contents, token counts, metadata and order. |
| Chunks.LegacyDigestBindsContent | stele/ledger/delivery.py:210-212 | A digest from before schema 6 binds ids and contents in order, and nothing else: equal exactly when those agree. |
| Delivery.PossiblyWrittenLoop | stele/ledger/delivery.py:127-161 | The loop over the log computes the fold that the theorems below are about. |
| Delivery.ClaimMeaning | stele/ledger/delivery.py:131-141 | After any part of a log: `written` means data landed after the last removal receipt, and an attempt is outstanding exactly when its intent has no outcome of its own. |
| Delivery.PossiblyWrittenMeaning | stele/ledger/delivery.py:127-161 | The claim holds exactly when something may have been written since the last removal receipt, or some intent never got its own outcome. |
| Delivery.LegacyReadingIsImplied | stele/ledger/delivery.py:138-149 | On a log written one attempt at a time, reading it without attempt ids never claims more than reading it with them. |
| Ledger.FirstIntentIsFirst | stele/ledger/delivery.py:104-118 | The binding intent is the first intent of the log, and is missing exactly when the log has none. |
| EventChain.Verify | stele/ledger/events.py:175-198 | Reports no problem exactly when the table is an intact chain from event 1 and, given an anchor, holds it; an anchor numbered below 1 is only reported on an empty table. Then the reported length is the table's. |
| EventChain.AcceptedIsContainedIff | stele/ledger/events.py:176-198 | On any table, accepted means intact and containing the anchor, except for a non-empty intact chain and an anchor numbered below 1. |
| EventChain.AnchorIsRequiredIff | stele/ledger/events.py:176-197 | The documented requirement, that the chain contains the anchor, is enforced on every table exactly for anchors numbered 1 or more. |
| EventChain.EarlyAnchorIsIgnored | stele/ledger/events.py:195-197 | The failing input: one event and any anchor numbered 0 or less, with any hash, is accepted. |
| EventChain.AppendKeepsIntact | stele/ledger/events.py:110-123 | Every chain built by appending is intact. |
| EventChain.AnchorFixesHistory | stele/ledger/events.py:175-198 | Two tables that verify against one anchor (n, h) with n >= 1 agree on every field of events 1 to n. |
| EventChain.TamperingIsReported | stele/ledger/events.py:175-198 | Any alteration, deletion, reordering, truncation or rewrite at or before an anchored event is reported. |
| EventChain.RewriteNeedsAnchor | stele/ledger/events.py:86-123 | Without an anchor a consistent rewrite is invisible: from any event of any intact chain on, its body can be replaced and the rest rebuilt so that the table verifies, and exactly the anchors from that event on report it. |
| LedgerView.RecordBodyReads | stele/ledger/events.py:355-380 | What a record event commits to reads back as the columns compared with the row. |
| LedgerView.EventBodyReads | stele/ledger/events.py:344-348 | A delivery event's chained body reads back as the tuple compared with its row. |
| LedgerView.CommitKeeps | stele/ledger/events.py:223-313 | Each write transaction (create, seal, fail, invalidate, open, append, bind, replay, sign-off) keeps the chain intact and the tables equal to the fold of the chain. |
| LedgerView.RunsKeepInv | stele/ledger/events.py:223-313 | So the ledger verifies after any sequence of transactions, in any order, committed or rolled back. |
| LedgerView.RunsOnlyExtend | stele/ledger/events.py:56-68 | No run of transactions alters or drops a logged event. |
| LedgerView.EditUnreportedIff | stele/ledger/events.py:259-285 | An edit to one record row goes unreported exactly when it keeps the run id, artifact hash, manifest, state, source hash and parser, and what the configuration and the run conditions read as. |
| LedgerView.UncoveredColumns | stele/ledger/events.py:274-278 | So the backend, the source's kind and id, the error text and the time of finalization of a row may change unseen, although the chain commits to the first four. |
| LedgerStore.LedgerDatabase.AppendChainEvent | stele/ledger/events.py:110-123 | The next event carries the next number, links to the current head and its own hash. |
| LedgerStore.LedgerDatabase.Backfill | stele/ledger/events.py:383-408 | On a ledger without events whose manifests match their hashes, the imported events rebuild exactly the tables found. |
| LedgerStore.CheckRecords | stele/ledger/events.py:250-285 | No problem exactly when every record row is what the chain says, and no row or record is missing from either side. |
| LedgerStore.CheckDeliveries | stele/ledger/events.py:287-295 | The same for delivery rows. |
| LedgerStore.CheckEvents | stele/ledger/events.py:296-301 | The same for each delivery's event list, in order. |
| LedgerStore.CheckReplays | stele/ledger/events.py:303-310 | The same for replay rows. |
| LedgerStore.VerifyLedger | stele/ledger/events.py:223-313 | Reports no problem exactly when the chain verifies against the anchor and every table is the fold of the chain. |
| LedgerStore.VerifyAfterRun | stele/ledger/events.py:223-313 | Running the verifier after any run of transactions on a new ledger, without an anchor or with one the chain contains, finds nothing. |
| LedgerView.FreshIsConsistent | stele/ledger/store.py:321-325 | A newly created ledger verifies. |
| LedgerView.CommitMovesForward | stele/ledger/store.py:672-703 | One transaction moves a record only forward, changes nothing else of its row, and leaves an invalidated row untouched. |
| LedgerView.RecordsOnlyMoveForward | stele/ledger/store.py:549-605 | Over any run INVALIDATED is terminal, FAILED never becomes SEALED, and a record's identity never changes. |
| LedgerStore.LedgerDatabase.constructor | stele/ledger/store.py:321-325 | A new database is empty, at the current schema version, and verifies. |
| LedgerStore.LedgerDatabase.CreatePending | stele/ledger/store.py:426-515 | Refuses a taken id or run, else inserts the row as PENDING together with its event. |
| LedgerStore.LedgerDatabase.Transition | stele/ledger/store.py:672-703 | Updates the row and logs the event only if the record is still in one of the allowed states; otherwise nothing changes. |
| LedgerStore.LedgerDatabase.Seal | stele/ledger/store.py:517-547 | Seals only a pending record whose bundle was archived; otherwise the record and the chain stay as they were. |
| LedgerStore.LedgerDatabase.Fail | stele/ledger/store.py:549-574 | Fails pending or failed records only. |
| LedgerStore.LedgerDatabase.Invalidate | stele/ledger/store.py:576-602 | Invalidates pending or sealed records only. |
| LedgerStore.LedgerDatabase.OpenDelivery | stele/ledger/delivery.py:248-267 | Returns the one delivery of this record and target, new and logged only if there was none. |
| LedgerStore.LedgerDatabase.Append | stele/ledger/delivery.py:269-304 | Appends the event and its chain event together, or, for an unknown delivery or a conflicting intent, nothing. |
| LedgerStore.LedgerDatabase.AppendIntent | stele/ledger/delivery.py:306-336 | Binds a first payload, accepts a retry of it, and refuses any other without logging. |
| LedgerStore.LedgerDatabase.AppendUnwrittenFailure | stele/ledger/delivery.py:338-345 | A failure of an attempt that wrote nothing leaves what the log claims of every other attempt unchanged. |
| LedgerStore.LedgerDatabase.Migrate | stele/ledger/migration.py:68-86 | Accepts versions 2 to 7 only; a ledger older than the event log verifies afterwards, and one that has it keeps its chain. |
| DeliverySafety.StepKeeps | stele/contracts/dispatcher.py:145-279 | Every step of every dispatch, invalidation, retract, writer and crash keeps the safety invariant: each target row is accounted for by the log's claim or by an attempt still open, and belongs to the bound payload. |
| DeliverySafety.RemovalReceiptKeeps | stele/contracts/dispatcher.py:272-279 | Logging a removal receipt keeps the invariant, recording whether a write outcome fell inside its window. |
| DeliverySafety.IntentKeeps | stele/contracts/dispatcher.py:195-202 | Logging an intent opens an attempt of its own and keeps the delivery bound to one payload. |
| DeliveryTheorems.RunsAreSafe | stele/contracts/dispatcher.py:145-279 | The invariants hold after every interleaving of any number of calls, crashes and partial writes. |
| DeliveryTheorems.StepCommits | stele/contracts/dispatcher.py:145-279 | Every change of the database in the protocol is one ledger transaction. |
| DeliveryTheorems.LogSoundness | stele/contracts/dispatcher.py:195-220 | In every reachable state, if the log claims nothing was written, the target holds no row of the delivery, unless a write outcome was logged between the last target-side removal and its receipt. |
| DeliveryWindows.RunsAreTracked | stele/contracts/dispatcher.py:263-279 | Over every run: each row inside a removal's window is still to be removed, or was landed by an attempt whose outcome was logged inside the window, or by an attempt still open; and a removal receipt hides exactly the second kind. |
| DeliveryWindows.LogSoundnessIff | stele/contracts/dispatcher.py:127-161 | Whenever the log claims nothing, the target holds exactly the rows the last removal receipt hid: landed behind the removal by attempts whose outcome was logged before the receipt, and not removed since. |
| DeliveryWindows.ReceiptIsSoundIff | stele/contracts/dispatcher.py:272-278 | Logging a removal receipt is sound if and only if each row settled in its window was landed by an attempt still open as well; a window with no write outcome settles none. |
| DeliveryWindows.InvalidationConvergesIff | stele/contracts/dispatcher.py:214-253 | Once every call has returned undisturbed, the log claims nothing of a withdrawn record's delivery and the target holds exactly what the last receipt hid. |
| DeliveryTheorems.OnePayload | stele/contracts/dispatcher.py:195-206 | In every reachable state all intents of a delivery carry one digest and count, and every target row is a chunk of the first intent's payload. |
| DeliveryTheorems.ReceiptMeansPayload | stele/contracts/dispatcher.py:204-212 | After a receipt with no removal begun the target holds exactly the payload, each chunk once, however many retries, crashes and dispatchers there were. |
| DeliveryConvergence.RunsAreCovered | stele/contracts/dispatcher.py:214-253 | Throughout, every written delivery of an invalidated record has a call still due to remove it, unless a call crashed, a removal failed or the record was invalidated elsewhere. |
| DeliveryConvergence.InvalidationConverges | stele/contracts/dispatcher.py:214-253 | Once all calls returned undisturbed, an invalidated record's deliveries are empty at their targets and the log says so, under the same proviso. |
| DeliveryConvergence.OneMoreRetract | stele/contracts/dispatcher.py:234-253 | After any crashes, one further retract that completes leaves nothing of a delivery of the record at its target, if the log claimed it or its last removal receipt overlapped no write outcome. |
| DeliveryConvergence.RetractCanFinish | stele/contracts/dispatcher.py:234-253 | From every state such a retract of an invalidated record can run to its end. |
| DeliveryWitness.OverlapHidesData | stele/contracts/dispatcher.py:272-278 | The proviso is needed: a run of one dispatch and one invalidation, neither crashed nor failed, ends with data at the target of an invalidated record while the log claims there is none. |
| DeliveryTheorems.LedgerVerifiesThroughout | stele/ledger/events.py:223-313 | The ledger verifies in every state the concurrent protocol reaches. |
| ChatTree.ConversationChunks | stele/adapters/chatgpt.py:101-192 | Succeeds exactly when the mapping is an object or absent, children are lists, current_node exists or is absent, and every node is reached by exactly one child path; the chunks are then those of the preorder. Each of the five errors is returned exactly for its own defect, in that order: a repeated node is the first in preorder that is reached again, and unreachable nodes are counted exactly. |
| ChatTree.WalkTree | stele/adapters/chatgpt.py:143-192 | The stack loop ends, visits every child path once in preorder, and reports the first node reached again or, where none is, the exact number of unreachable nodes. |
| ChatTree.Visit | stele/adapters/chatgpt.py:150-186 | One turn of the loop emits the node's chunk with its true depth, position and ancestor, and pushes its children so that order and coverage are kept. |
| ChatTree.PushAll | stele/adapters/chatgpt.py:184-186 | Children are stacked last first, each with the frame of its own child path. |
| ChatTree.PreorderIsUnique | stele/adapters/chatgpt.py:143-186 | The preorder of a mapping is one definite list, so the output is determined. |
| ChatTree.ChunkParentIsNearest | stele/adapters/chatgpt.py:159-186 | The recorded parent is the nearest node above with text, or none if no node above has any. |
| ChatTree.OneChunkPerTextNode | stele/adapters/chatgpt.py:155-182 | A complete walk emits exactly one chunk for each node with text, carrying that node's text, and no id twice. |
| ChatTree.CompleteWalkParentsFirst | stele/adapters/chatgpt.py:159-186 | A chunk's parent is always a chunk emitted before it. |
| ChatTree.Ancestors | stele/adapters/chatgpt.py:195-202 | The displayed branch is exactly the chain of in-mapping parents from current_node, even when the parent links form a cycle. |
| Utf8.DecodeInvertsEncode | stele/identity/refs.py:209-214 | Decoding inverts encoding on all text (RFC 3629). |
| Utf8.EncodeInvertsDecode | stele/identity/refs.py:209-214 | Strict decoding accepts exactly the encodings. |
| Refs.UnquoteInvertsQuote | stele/identity/refs.py:205-214 | Percent-decoding inverts percent-encoding on all text, with '/' literal or not (sections 2.1 and 2.3 of RFC 3986). |
| Refs.DecimalInverts | stele/identity/refs.py:65-68 | The decimal form of any natural number is accepted, has no leading zero and reads back as it. |
| Refs.SplitAtFinds | stele/identity/refs.py:57-62 | Splitting at the last '@' finds the digest whatever the left part holds. |
| Refs.FragmentRoundTrip | stele/identity/refs.py:225-240 | A byte range or a pointer with its renderer survives being written as a fragment and parsed. |
| Refs.AnchorRoundTrip | stele/identity/refs.py:205-243 | An anchor reference survives, for arbitrary artifact paths and pointers. |
| Refs.ParseInvertsFormat | stele/identity/refs.py:275-285 | parse_ref(str(r)) == r for every well-formed reference of all six types. |
| Refs.AcceptedIsCanonical | stele/identity/refs.py:275-285 | An accepted string parses to a well-formed reference whose spelling it is. |
| Refs.OneSpellingEach | stele/identity/refs.py:275-285 | Accepted strings and well-formed references are in bijection. |
| TreeCodec.NoClashMeaning | stele/archive/store.py:138-146 | The clash check passes exactly when no path continues another past a '/'. |
| TreeCodec.HasClash | stele/archive/store.py:138-146 | Computes whether a path is both a file and a directory. |
| TreeCodec.DecodeTree | stele/archive/store.py:105-135 | Accepts exactly the encodings of manifests with safe paths, valid digests and no file-directory clash, and gives the manifest back. |
| TreeObjects.DecodeObject | stele/archive/store.py:105-135 | On a tree object of digests in use decode_tree returns the paths with those digests' texts, so the codec the publish protocol reads trees with is the one the code runs. |
| TreeCodec.ReadFields | stele/archive/store.py:119-131 | The loop over pairs of fields rebuilds the manifest of any bytes that encode one. |
| TreeCodec.EncodeManifest | stele/ledger/hashing.py:221-232 | The bytes are the path-NUL-digest-NUL entries in path order. |
| TreeCodec.EntriesSplit | stele/ledger/hashing.py:221-232 | Splitting an encoding at NUL gives back its paths and digests, field by field. |
| TreeObjects.ObjectsAreGood | stele/ledger/hashing.py:221-237 | The tree codec has the property the publish protocol asks for, on any digests whose hexadecimal texts tell them apart. |
| TreeCodec.TreeBytesAreInjective | stele/ledger/hashing.py:235-237 | Two safe manifests with the same bytes are the same manifest. |
| TreeCodec.WriteFile | stele/archive/ingest.py:91-98 | Writing one more file of a safe tree collides with nothing written before, and fails only if its blob is missing. |
| TreeCodec.Materialize | stele/archive/ingest.py:77-98 | A safe tree is written out completely, its files at their paths with only the directories above them, exactly when all its blobs are present. |
| TreeCodec.RewalkGivesManifest | stele/archive/ingest.py:89-98 | Walking the written directory gives the manifest back, path by path and digest by digest. |
| Readdir.FromLeInverts | stele/containment/wasm.py:591-591 | A little-endian field reads back as the number packed into it. |
| Readdir.ParsePage | stele/containment/wasm.py:613-619 | A page cut at any byte parses to exactly the entries it holds whole. |
| Readdir.ReadPage | stele/containment/wasm.py:612-619 | The inner loop collects exactly the page's whole entries and continues at the last one's cookie. |
| Readdir.ListDirectory | stele/containment/wasm.py:599-625 | From any conforming fd_readdir host (WASI preview 1) the loop ends with the full entry set sorted by name, or with the host's error, or with EOVERFLOW when an entry exceeds the buffer. |
| Readdir.SortMeaning | stele/containment/wasm.py:624-625 | The listing is in name order and is a permutation of the directory's entries. |
| Readdir.Run.Inode | stele/containment/wasm.py:571-573 | Inode numbers are 1, 2, ... in order of first observation, injective, and never change once given. |
| Readdir.Run.FdReaddir | stele/containment/wasm.py:575-597 | A call at cookie 0, or the first on a descriptor, lists the directory; every reply is the listing from the cookie on, cut at the buffer's length. |
| Readdir.ReplyHolds | stele/containment/wasm.py:585-594 | A reply shorter than the buffer holds the rest of the listing; a full one that fits the largest entry holds at least one more. |
| Readdir.ReadWhole | stele/containment/wasm.py:575-597 | A guest that resumes at the last complete entry's cookie, with any buffers holding the largest entry, ends and has read the sorted listing exactly once under stable numbers. |
| PublishSafety.StepKeeps | stele/archive/store.py:195-284 | Every step and crash of every writer keeps the store's invariant, and what is published only grows. |
| PublishSafety.LinkPublishes | stele/archive/store.py:230-239 | The hard link publishes only a complete, fsynced file under the digest of its bytes or a record of content already present. |
| PublishSafety.ExistingAgrees | stele/archive/store.py:226-239 | What is already published under a writer's final name is what that writer would have published. |
| PublishSafety.PublishedIsComplete | stele/archive/store.py:402-461 | In every reachable state each blob hashes to its name, each snapshot record's content is present with matching totals, and each sealed bundle's tree and files are present. |
| PublishSafety.PublishedNeverChanges | stele/archive/store.py:215-251 | No step and no crash of a process removes or alters a published blob, snapshot record or sealed row. |
| PublishDurability.SurvivorsAreIntact | stele/archive/store.py:195-251 | After a power failure at any point of any run, every blob and record still there holds what it held, and every name synced with all directories above it is still there. |
| PublishDurability.OnlyShardsAreSynced | stele/archive/store.py:221-225 | No run makes durable the entry of a directory above the shards: blobs, meta, meta/snapshots, or the directory of a kind. |
| PublishDurability.NothingCanGoIff | stele/archive/store.py:215-251 | No power failure can take a published name if and only if each has been synced with every directory above it. |
| PublishDurability.PowerLossIsHarmlessIff | stele/archive/store.py:215-251 | Whatever a power failure takes, every snapshot record and sealed row left is complete, if and only if each blob they need had its shard synced after it was linked, its shard synced into the blobs directory, and the blobs directory is durable. |
| PublishDurability.WritersGoOn | stele/archive/store.py:172-185 | A store opened again after a power failure that did no harm is one these theorems start from, with everything found on the disk durable: they hold over any number of failures. |
| PublishDurability.AtRestIsDurableIff | stele/archive/store.py:221-247 | Once every writer has come to its own end and no sync was left out, a published name is durable if and only if its base directory, with all above it, was durable before the run. |
| PublishDurability.AtRestIsHarmlessIff | stele/archive/store.py:221-247 | At rest every record left by a power failure is complete if and only if the blobs directory was durable before the run, or no record needs a blob. |
| PublishDurability.RecordOutlivesItsBlob | stele/archive/store.py:226-247 | A run that a power failure breaks: a second writer finds a linked blob, publishes a record over it, and the power fails before the first writer syncs the shard. The record stays and the blob goes, whichever layout directories are durable. |
| PublishDurability.RecordAtRestCanGo | stele/archive/store.py:221-247 | A run at rest that a power failure breaks: one snapshot is taken to its end with every sync done, and its record goes with the directory of its kind, which nothing syncs into its parent, even if the whole layout is durable. |
| PublishSafety.EndedPutIsPublished | stele/archive/store.py:265-284 | A put that ends well has published its digest: it reads back as the bytes hashed, is the digest expected, and a record reads back as the record. |
| PublishSafety.WritersNeverConflict | stele/archive/store.py:265-284 | Concurrent puts of equal content never conflict: a put fails only for a wrong expected digest or an error while writing. |
| PublishSafety.SnapshotKeeps | stele/archive/store.py:402-461 | put_snapshot re-reads blob by blob and records only a snapshot whose content and totals are right, whatever other writers do meanwhile. |
| PublishSafety.DirKeeps | stele/archive/ingest.py:22-54 | Storing a staged input or a bundle file by file, then its tree, then its record, keeps the invariant at every interleaving. |
| PublishSafety.SealKeeps | stele/ledger/store.py:328-378 | A bundle is sealed only after its tree object and every file are present, on the path that stores the files and on the path that finds them archived. |
| Markdown.MarkdownBlocks | stele/extraction/normalizers.py:120-172 | The line loop computes the block ranges the next lemma is about. |
| Markdown.BlocksCoverTheText | stele/extraction/normalizers.py:120-172 | Block ranges are in bounds, non-empty, ordered and disjoint, and every byte outside them is white space or a line ending. |
| Markdown.FencedKind | stele/extraction/normalizers.py:175-194 | A fenced block is code, unless it is two lines with a setext underline for its second: then, and only then, it is a heading. |
| Markdown.UnclosedFenceIsAHeading | stele/extraction/normalizers.py:181-184 | Such a block exists: an unclosed fence over a line of dashes is one block and is classed as a level-2 heading. |
| Normalize.PopTo | stele/extraction/normalizers.py:211-213 | Popping leaves the sections of smaller level and drops only those of the heading's level or deeper. |
| Normalize.HeadFound | stele/extraction/normalizers.py:211-216 | What remains open heads the new unit: the nearest earlier heading of strictly smaller level, or for other blocks the latest heading. |
| Normalize.SectionsAfter | stele/extraction/normalizers.py:211-216 | The stack of open sections stays strictly increasing and covers every heading not closed by a later one. |
| Normalize.AddBlock | stele/extraction/normalizers.py:203-220 | One block becomes one unit with its exact text, kind, level, range and true parent. |
| Normalize.NormalizeMarkdown | stele/extraction/normalizers.py:197-221 | Whenever it returns, the extraction is valid and verifies, with one unit a block, nested under the nearest heading of smaller level. |
| Normalize.MarkdownPathIff | stele/extraction/normalizers.py:101-117 | The path taken is the one the parser manifest names, or document.md if it names none, and only if it is an artifact of the bundle. |
| Resolver.UnescapeInvertsEscape | stele/extraction/normalizers.py:228-230 | Unescaping a reference token inverts escaping it, and an escaped token holds no '/' (section 3 of RFC 6901). |
| NormalizeChat.PointerFindsMessage | stele/extraction/normalizers.py:250-257 | The pointer of a chunk leads to the message the chunk's text was rendered from. |
| NormalizeChat.AddConversation | stele/extraction/normalizers.py:243-259 | Each chunk becomes a unit under its parent chunk's unit; the lookup never fails and finds this conversation's unit even when two conversations share an id. |
| NormalizeChat.NormalizeChatgpt | stele/extraction/normalizers.py:240-263 | Whenever it returns, the extraction is valid and verifies, and every parent is an earlier unit of the same file. |
| ConversationNames.NameAll | stele/adapters/chatgpt.py:65-80 | The naming loop gives conversation i its id, or the id with how often it has been seen, for any list of ids. |
| ConversationNames.NamesDistinctIff | stele/adapters/chatgpt.py:77-80 | The numbering keeps all names apart exactly when no listed id is another listed id followed by # and a number from 2 to the count of that other id. |
| ConversationNames.NamesCanCollide | stele/adapters/chatgpt.py:77-80 | The failing input: run on a#2, a, a the loop gives the first and the third conversation one name. |
| Resolver.ResolvePointer | stele/extraction/resolver.py:60-81 | The loop descends by the pointer's unescaped tokens, through members and canonical array indices only (section 4 of RFC 6901). |
| Resolver.ResolveInvertsPointer | stele/extraction/resolver.py:60-81 | Resolving a pointer built from any token list descends by exactly those tokens. |
| Resolver.BundleResolver.Bytes | stele/extraction/resolver.py:100-116 | The cached bytes are those an uncached read gives, with the same errors. |
| Resolver.BundleResolver.Parsed | stele/extraction/resolver.py:118-126 | The cached document is the one an uncached read and parse gives. |
| Resolver.BundleResolver.Resolve | stele/extraction/resolver.py:128-146 | The cached resolver answers every anchor, in any order of calls, as an uncached one does. |
| Resolver.BundleResolver.Verify | stele/extraction/resolver.py:148-189 | No problem exactly when the header is the record's and every unit's text is what its anchor resolves to; otherwise exactly the units that differ are reported. |
| Extraction.CheckUnits | stele/extraction/contract.py:196-210 | Accepts exactly unit lists with unique ids, consecutive order and parents that are earlier units. |
| Extraction.ParentsAreEarlier | stele/extraction/contract.py:201-210 | In a valid extraction a parent precedes its child, so units form a forest. |
| Extraction.UnitIdsDiffer | stele/extraction/contract.py:247-252 | Assigned unit ids are distinct however many units there are. |
| Journal.OpeningRecovers | stele/verification/campaign.py:115-145 | Opening a journal cut off anywhere gives exactly the observations completely written, in order, and leaves a whole journal of them. |
| Journal.JournalRecovers | stele/verification/campaign.py:115-170 | After any appends, cut off at any byte by crashes, and reopenings, the next opening finds exactly the completely written observations. |
| Journal.OpenJournal | stele/verification/campaign.py:115-145 | Opening truncates a torn line, refuses another campaign's header or an unreadable line, and otherwise reads every line. |
| Journal.Journal.Append | stele/verification/campaign.py:159-170 | An append adds one line to the file and one observation, and the file opens as the longer list. |
| Journal.Journal.Run | stele/verification/campaign.py:230-252 | A run observes the pending pairs in corpus order, up to its limit, each appended before the next. |
| Journal.PendingMeaning | stele/verification/campaign.py:223-228 | The pending pairs are exactly those of the campaign not done yet, each once. |
| Journal.RunsObserveEachPairOnce | stele/verification/campaign.py:223-252 | One run, whole, limited or cut off after any append, adds no pair twice to a journal without repeats; once nothing is pending every pair is there. |
| Campaign.NoPairTwice | stele/verification/campaign.py:115-252 | Over every history of runs, limits, crashes (also inside an append or inside opening the journal) and resumptions, no pair is recorded twice, and the next opening reads exactly what was recorded. |
| Campaign.NothingPendingIff | stele/verification/campaign.py:223-252 | After any such history nothing is pending exactly when every document and lane has been recorded exactly once. |
| Campaign.OneMoreRunFinishes | stele/verification/campaign.py:230-252 | From any such history one more run that is not interrupted records every document and lane exactly once. |
| Policy.Walk | stele/replay/policy.py:146-167 | The accumulating walk adds no finding exactly when the values agree: same compared keys, same lengths, floats within the nearest enclosing keyed tolerance, all else equal. |
| Policy.WalkKeys | stele/replay/policy.py:147-154 | The same for two objects, key by key. |
| Policy.AgreesIsSymmetric | stele/replay/policy.py:146-167 | Agreement is symmetric in its two values, at every nesting of tolerances. |
| Policy.AgreesWithItself | stele/replay/policy.py:161-167 | A value agrees with itself exactly when it holds no NaN outside ignored keys. |
| Policy.CompareFile | stele/replay/policy.py:122-130 | One file adds no finding exactly when digests are equal or both sides are JSON that agrees. |
| Policy.Compare | stele/replay/policy.py:114-131 | Accepted exactly when both runs made the same files and each agrees, and then there are no findings. |
| Policy.VerdictIsSymmetric | stele/replay/policy.py:114-131 | The verdict is symmetric in the two runs. |
| Report.LatestIsTheLast | stele/verification/report.py:215-217 | The observation kept for a document and lane is the last one journalled. |
| Report.RecordChecker.Check | stele/verification/report.py:366-411 | No problem exactly when the cited record is live, is the run named, has the campaign's parser, configuration, lane backend and document, verifies, and is not claimed under another name. |
| Report.OneClaimStep | stele/verification/report.py:392-395 | The claim check passes exactly when no two pairs seen so far cite one record under different claimant texts. |
| Report.ObserveLane | stele/verification/report.py:239-257 | The missing, error and integrity counters stay zero exactly while every pair seen is observed, not in error, and backed by its own record. |
| Report.CompareLane | stele/verification/report.py:260-284 | Each outcome is counted once, and is waived or unwaived by whether a waiver names it. |
| Report.BuildReport | stele/verification/report.py:233-305 | Each gate on coverage, baseline output, errors, records, candidates and waivers passes exactly when what it claims is so; the report passes exactly when all gates do; each candidate's outcomes are counted once a document and sum to the corpus size. |
| Report.PassingMeans | stele/verification/report.py:568-631 | A passing report has an observation for every document and lane, no comparison in error or incomplete, every finding waived, every waiver used, and every sealed run backed by a live verified record of its lane's backend. |
| Report.OneRecordOneClaimant | stele/verification/report.py:392-395 | In a passing report two sealed runs that cite one record have the same claimant text. |
| ReportClaims.SameClaimantIff | stele/verification/report.py:392-392 | Two runs share a claimant text exactly when one's document is the other's followed by a bracketed piece that the other's lane starts with. |
| ReportClaims.OneRecordOneRun | stele/verification/report.py:366-411 | Where no two runs of the corpus and lanes overlap in that way with one backend and one document hash, the sealed runs of a passing report cite pairwise distinct records. |
| ReportClaims.OneRecordTwiceIff | stele/verification/report.py:366-411 | A passing report over a ledger whose run ids are all different can cite one record for two runs if and only if the corpus and lanes hold two such runs. |
| ReportClaims.OneRecordForTwoRuns | stele/verification/report.py:366-411 | The failing input: documents a and a [b] with one content, lanes c and b] [c on one backend; over a ledger whose run ids are all different all gates pass and one record stands for two runs. |

## Left out

- Pre-schema-8 events in the concurrent theorems: every attempt there carries an id. `Delivery.LegacyReadingIsImplied` relates the two readings on sequential logs.
- Version-0 migration: it rewrites rows from evidence on disk; versions 2 to 7 are modelled, with DDL reduced to the version number.
- The dispatcher as an object updated in place: its calls are step machines over values, because what is proved is about interleavings. The adapter's output and the writer's behaviour are the environment: a writer lands any chunks of its payload in any order, returns only once all landed, and reports a partial count truthfully.
- Fresh ids: attempt and dispatch ids are taken to be new, as uuid4 makes them.
- An invalidation made directly in the ledger, outside the dispatcher's `invalidate`, counts as a disturbance in the convergence theorem; a later retract covers it.
- SHA-256, the canonical JSON text and SQLite's internals: digests are constructors, JSON is a datatype, and a write transaction is one step.
- The order in which the ledger verifier and backfill visit rows, and the wording of problems: the model says whether there is a problem, not in which order they are listed.
- Rendering a message and the per-chunk fields copied from it (author, recipient, times): the rendered text is an input of the walk, and an author that is not an object is not modelled.
- Reading index.jsonl line by line and choosing a conversation's id: both are inputs.
- Refs.ParseInvertsFormat: strings are sequences of Unicode scalar values, so an anchor pointer that holds a lone surrogate is outside the theorem: the original accepts such an anchor and then raises when it is written as text.
- The number of replacement characters that lossy decoding emits for malformed bytes: no such text is ever accepted as canonical.
- Cookies of 2^63 and above and negative buffer lengths in fd_readdir, and faults on guest memory.
- Readdir.ListDirectory: assumes the directory does not change while it is being listed, and a host that follows the interface.
- Hex digests inside tree objects as seen by the publish protocol: the tree codec is a parameter there, and `TreeObjects.ObjectsAreGood` instantiates it for digests whose texts tell them apart.
- Windows fallbacks, the archive's marker file and Source records. The archive's root directory is taken as durable, and which of blobs, meta and meta/snapshots are durable at the start of a run is a parameter of the power-loss theorems. The first snapshot of a kind makes the kind's directory and its shard in one step. The store's reads of one blob are one step each, and database commits are durable.
- Columns of a record row that the ledger verifier never reads (source path, artifact directory, time of creation, the unverified hash of old ledgers) are not part of the row.
- Journal.Journal.Append: does not model a write that the operating system cuts short without an error: an append either reaches the file or the process crashes inside it. After such a write the code would go on behind the torn line.
- Python's limit of 4300 digits on integer text: decimal ranges of any length parse, and JSON integers of any size exist. An integer beyond the range of floats compared with a float raises in the original and does not here.
- Floating-point rounding in the tolerance comparison: finite floats are reals, and NaN and the infinities are values of their own.
- Report.BuildReport: takes the optional thresholds (baseline failure rate and slowdown), the re-hashed corpus and the ledger's own verification as inputs, and leaves out statistics, finding texts and waiver reasons.
- Sandbox launching, staging and no-follow file access, process running, Landlock, the Wasmtime engine, deterministic clocks and entropy, telemetry and command lines: foreign calls and operating-system behaviour.
- Backend selection, bounded capture, replay outcomes and sign-off records: they would add only easy members.
