# Kition: models and proofs

Dafny models of the state-carrying cores of Kition's front end and of its end-to-end
helpers, and proofs of what they promise. `dafny verify dfyconfig.toml` checks everything.

| file | what it models |
|---|---|
| `Words.dfy`, `Fips180.dfy`, `Fips180Constants.dfy`, `Sha256.dfy` | JavaScript's 32-bit operators; FIPS 180-4 and RFC 2104; where the constants come from; the SHA-256 loops over JavaScript numbers that refine the standard |
| `SignedPaths.dfy` | signed runtime paths, from the renderer that makes them to the gate that reads them |
| `OpenDocuments.dfy` | the registry of open documents: registrations, followers, cleanups |
| `RuntimeBridge.dfy`, `BridgeHistory.dfy` | the window's and the runtime's end of the bridge, step by step, with reconnects; the history of every answer |
| `Blobs.dfy`, `FileStore.dfy`, `CrashSafety.dfy` | the document store as files, one file operation at a time, and what is left when a call is cut off |
| `MemoryStore.dfy`, `StoresAgree.dfy`, `StoreAnswers.dfy` | the document store as one object, and its agreement with the files; what both check, record and answer |
| `Documents.dfy`, `LogRuns.dfy` | calls, answers, and the log of an entry that both stores keep |
| `KitGrants.dfy`, `GrantAnswers.dfy`, `FreeNames.dfy` | file grants of kits; exactly when each request is granted or refused; the search for a free name |
| `AgentStream.dfy` | the reader of an agent's turn, the script that writes it, the cursor over the log |
| `Settings.dfy`, `SettingsKept.dfy` | the settings normalizer, loading and saving with secrets; what normalizing keeps of its input |
| `LineDiff.dfy`, `Text.dfy`, `Options.dfy` | the single-block line difference; lines, trimming, decimals; optional values |

Code that changes state is a class, or a method with a loop, and each such method is proved
against a function of the old state; what the code promises is then proved about that
function over every run.

Where the code does something else than its comments or its neighbours say, the model
follows the code and a lemma says exactly when the promise holds:

- A bridge answer goes to the session of the moment its handler starts
  (`src/services/runtimeBridge.ts:69`), not to the one its request came on, as line 65 says.
  `AnswersOwnSession` gives the exact condition, `AnswersLaterSession` an example.
- Withdrawing removes the first equal document of a path. The lists stay in the order of
  registration exactly when no withdrawal reaches around another object (`InOrderExactly`,
  `Registry.Withdraw`), and `find` goes on answering the oldest registration under a weaker
  condition (`WithdrawnInPlace`); `RepeatedObjectLosesItsPlace` runs a failing case.
- The two document stores differ on a write with neither changes nor a snapshot
  (`AlikeExactlyWhenBrought`), on empty authors and labels (`AlikeExactlyWhenNamed`), and on
  documents named like a method of all objects: the store in memory looks them up in plain
  objects and finds the method (`ConstructorDiffers`). `StoresAnswerAlike` says exactly which
  runs are answered alike.
- After a delete, numbering starts again, so two appends on one base can both win
  (`DeleteRestartsNumbers`).
- Bytes may be posted to a folder handle with a create right, whose name no extension rule
  was applied to (`FolderHandleCommitsUndeclared`); through a file handle the rule holds
  (`FileHandleCommitsDeclared`), and `CommitsDeclaredExactly` has both.
- `normalizeProviderBaseURL` drops one slash and does not look at the rest again, so
  normalizing is idempotent exactly for steady base URLs (`BaseUrlTwice`, `NormalizedTwice`;
  `SlashesGoOneByOne` is an example). It cannot give `/v1` to a URL with an opaque path, such
  as `localhost:` (`PathIsAppended`).
- `uniqueName` keeps the extension of every name but `..` (`KeepsExtensionExactly`).
- The renderer counts the signed part in UTF-16 units and the gate in bytes, the same exactly
  for the percent-encoded paths it is meant for (`SignedPartIsRead`).

## Model

| member | source | states |
|---|---|---|
| Words.JsBitwise | src/lib/hmacSha256.ts:28-39 | JavaScript's `&`, `\|`, `^`, `~` give signed numbers that agree with the 32-bit words modulo 2^32 |
| Words.BitwiseDigits | src/lib/hmacSha256.ts:28-39 | and, or and exclusive or are what their names say on every binary digit |
| Words.OrOfDisjoint | src/lib/hmacSha256.ts:28 | the two shifted halves of a word share no digit, so their `\|` is their sum |
| Fips180.PadIsMinimal | src/lib/hmacSha256.ts:20-22 | the padded length is the least multiple of 64 with room for the message, one byte and eight length bytes |
| Fips180.PadRecordsLength | src/lib/hmacSha256.ts:24-25 | the last eight bytes of the padding are the message's length in bits, as one 64-bit number |
| Fips180.PadIsInjective | src/lib/hmacSha256.ts:19-25 | two messages with one padding are equal |
| Fips180Constants.PrimesAreFirst | src/lib/hmacSha256.ts:7-16 | the 64 numbers the constants are made from are the first 64 primes |
| Fips180Constants.ConstantsAreCubeRoots | src/lib/hmacSha256.ts:7-16 | each round constant is the first 32 bits of the fraction of the cube root of its prime |
| Fips180Constants.InitialAreSquareRoots | src/lib/hmacSha256.ts:26 | each word of the initial state is the first 32 bits of the fraction of the square root of its prime |
| Sha256.RotrAgrees | src/lib/hmacSha256.ts:28 | `(x >>> n) \| (x << (32 - n))`, signed, is ROTR of the word modulo 2^32 |
| Sha256.RotationsAgree | src/lib/hmacSha256.ts:32-39 | the signed `^` of three rotations is the standard's sigma modulo 2^32 |
| Sha256.ChoicesAgree | src/lib/hmacSha256.ts:38-39 | the signed Ch and Maj expressions are the standard's modulo 2^32 |
| Sha256.ScheduleAgrees | src/lib/hmacSha256.ts:31-35 | the schedule word summed in exact doubles stays below 2^53 and is the standard's after `>>> 0` |
| Sha256.TemporariesAgree | src/lib/hmacSha256.ts:38-39 | both temporaries, summed in exact doubles below 2^53, are T1 and T2 after `>>> 0` |
| Sha256.RoundAgrees | src/lib/hmacSha256.ts:37-48 | one turn of the loop over `a` to `h` is the standard's round |
| Sha256.Padded | src/lib/hmacSha256.ts:19-25 | the padded buffer, with the length split by `/ 0x20000000` and `<< 3 >>> 0`, is the standard's padding |
| Sha256.FillSchedule | src/lib/hmacSha256.ts:30-35 | the loops over `w` fill in the message schedule of the block |
| Sha256.CompressBlock | src/lib/hmacSha256.ts:36-48 | the 64 turns compute the standard's 64 rounds |
| Sha256.AddInto | src/lib/hmacSha256.ts:49-56 | the eight stored sums wrap as the standard's additions |
| Sha256.Sha256 | src/lib/hmacSha256.ts:18-62 | the whole method returns the hash of section 6.2.2 of FIPS 180-4, for every message shorter than 2^53 bytes |
| Sha256.WordsOut | src/lib/hmacSha256.ts:58-61 | the eight words are written most significant byte first |
| Sha256.HmacSha256Hex | src/lib/hmacSha256.ts:65-79 | the result is HMAC of section 2 of RFC 2104 in lower-case hex |
| Sha256.HexIsInjective | src/lib/hmacSha256.ts:78 | different bytes have different hex |
| Sha256.HexIs | src/lib/hmacSha256.ts:78 | each byte is written as two lower-case digits, the high one first |
| SignedPaths.ParseStamped | src/services/runtimeAuth.ts:116 | a stamp followed by any text that starts with `/` reads back as its own expiry, length and signature |
| SignedPaths.SignedPathsAreUnambiguous | src/services/runtimeAuth.ts:108-117 | two signed paths, each followed by any text, are equal only with one expiry, one signed path and one rest |
| SignedPaths.SignedPartIsRead | crates/kition-http/src/gate.rs:140 | the gate cuts out the text that was signed, whatever is appended, exactly when that text is ASCII: it counts bytes, the renderer UTF-16 units |
| SignedPaths.SignedPathVerifies | crates/kition-http/src/gate.rs:127-154 | the gate reads a percent-encoded signed path with text appended as the unsigned path with that text, exactly while it has not expired and may be signed |
| SignedPaths.GateAcceptsOnlySigned | crates/kition-http/src/gate.rs:131-153 | what the gate lets through starts with a text that may be signed, is as long as its stamp says, carries its code for the expiry in the stamp, and has not expired |
| SignedPaths.SignedTextIsInjective | src/services/runtimeAuth.ts:115 | the code covers both expiry and path: no two of them give one text |
| SignedPaths.SuffixIsKept | src/services/runtimeAuth.ts:110-116 | query and fragment stay behind the signed part, unsigned |
| SignedPaths.SignsExactly | src/services/runtimeAuth.ts:109-113 | a path is signed exactly with a token, from the root, not twice, and as a folder only when it ends in a slash |
| SignedPaths.PathIsBefore | src/services/runtimeAuth.ts:110-112 | the signed part is what stands before the query and the fragment |
| SignedPaths.SigningIsIdempotent | src/services/runtimeAuth.ts:109 | a signed path is left as it is, whatever the scope and time |
| SignedPaths.ExpiryWindow | src/services/runtimeAuth.ts:98-100 | the expiry is more than 24 and at most 25 hours ahead and changes exactly with the hour |
| OpenDocuments.ProperAlternates | src/lib/openDocuments.ts:26-40 | per follower and path, attach and cleanup strictly alternate, each cleanup for the document just attached |
| OpenDocuments.Registry.Register | src/lib/openDocuments.ts:43-47 | a registration goes last in its path's list, in order if it was; the first one is announced once to every follower |
| OpenDocuments.Registry.Withdraw | src/lib/openDocuments.ts:49-63 | a withdrawal takes out the first equal document once; if it was announced, its holders clean up and the next one is announced in its place; a list in order stays so, and its head the oldest registration, each exactly under its condition |
| OpenDocuments.Registry.Close | src/lib/openDocuments.ts:53-62 | taking out the announced document hands its path over; a later one changes nothing followers hear |
| OpenDocuments.Registry.Attach | src/lib/openDocuments.ts:29-35 | a follower hears a document and its cleanup, if it gave one, is stored under both |
| OpenDocuments.Registry.Announce | src/lib/openDocuments.ts:47 | every follower hears the document once, in the order they follow |
| OpenDocuments.Registry.Detach | src/lib/openDocuments.ts:37-40 | the document's holders, and only they, clean up once each |
| OpenDocuments.Registry.Follow | src/lib/openDocuments.ts:65-67 | a function that does not follow hears exactly one document for each open path and is kept in agreement, also if it followed before |
| OpenDocuments.Registry.Unfollow | src/lib/openDocuments.ts:68-74 | an unfollowed listener cleans up everything it held and nobody else is told anything |
| OpenDocuments.Registry.Find | src/lib/openDocuments.ts:76 | `find` answers the head of the path's list, which is what every follower holds; nothing exactly when no registration remains; the oldest that remains whenever the list is in order |
| OpenDocuments.Run | src/lib/openDocuments.ts:42-77 | after every run the registrations, withdrawals and followers are those of its calls, each path's list is the one the calls leave, and every follower holds its head, one live attachment per open path and none for others |
| OpenDocuments.WithdrawnInPlace | src/lib/openDocuments.ts:53-55 | removing the first equal document leaves what removing the withdrawn one would, exactly when all between them are that document; and the same head exactly when that object is not announced, or it was its oldest registration, or is registered again right behind |
| OpenDocuments.InOrderExactly | src/lib/openDocuments.ts:23-24 | over every run, all lists hold the remaining registrations, oldest first, at every moment, exactly when every withdrawal is in place at its moment |
| OpenDocuments.OnceRegisteredInOrder | src/lib/openDocuments.ts:23-24 | in a run that registers no object twice every list holds the remaining registrations, oldest first |
| OpenDocuments.RepeatedObjectLosesItsPlace | src/lib/openDocuments.ts:53-60 | a run in which an object registered before and after another one is withdrawn the second time: `find` answers the other one and the follower holds it, though the first registration remains the oldest |
| RuntimeBridge.StepConserves | src/services/runtimeBridge.ts:50-86 | each step keeps every issued request in exactly one place |
| RuntimeBridge.RunConserves | e2e/helpers/documentBridge.ts:13-44 | over any run, issued requests are queued, in flight, waiting, running, answered or lost with a closed stream: each exactly once |
| RuntimeBridge.EveryRequestIsAnsweredOnce | e2e/helpers/documentBridge.ts:40-45 | while a channel stays open, over any number of reconnects, no request is lost or doubled, each is carried by at most one stream and handled at most once, and each answer is how the one handler of its request ended; when nothing is under way every request was carried once, handled once and answered |
| BridgeHistory.AnswersTellHowHandlersEnded | src/services/runtimeBridge.ts:64-84 | over any run, each answer filed or on its way goes back to one request issued under its id with a name and parameters, received as such, started on the session it is sent to, and ended with the outcome that is sent, or with the unknown-method failure exactly when no open channel handled it |
| BridgeHistory.IssuedOnce | e2e/helpers/documentBridge.ts:41 | one request is issued under an id |
| BridgeHistory.FindsFirst | src/services/runtimeBridge.ts:64 | a method is taken by the first open channel that handles it, and by none exactly when none does |
| BridgeHistory.ReadyAnnounces | src/services/runtimeBridge.ts:59-63 | a new session is told everything each open channel announces, in order, and the runtime files the announcements of open documents |
| BridgeHistory.ClosedIsGone | src/services/runtimeBridge.ts:93-101 | closing a channel drops its queue and nothing of the others; closing the last one drops stream, session, queues and what is on the stream |
| RuntimeBridge.OpenRunStaysBalanced | src/services/runtimeBridge.ts:73-84 | over any open run the handlers that ended for a request are as many as its answers posted or filed |
| RuntimeBridge.RunStreamsOnce | e2e/helpers/documentBridge.ts:19-28 | over any run each issued request is still queued, or was carried exactly once |
| RuntimeBridge.AnswersAreTruthful | src/services/runtimeBridge.ts:73-84 | every answer filed or on its way is what a handler concluded for that id |
| RuntimeBridge.AnswersOwnSession | src/services/runtimeBridge.ts:64-70 | an answer goes to the session its request came on exactly when no stream became ready before its handler started |
| RuntimeBridge.AnswersLaterSession | src/services/runtimeBridge.ts:65-69 | a request of session 1 held up over a reconnect is answered on session 2 |
| RuntimeBridge.ChannelInOrder | src/services/runtimeBridge.ts:39-41 | while a channel stays open its handlers run one at a time in the order of arrival, the finished ones are always the first of the arrived, and its answers are posted in that order |
| RuntimeBridge.StuckHandlersBlockNoOther | src/services/runtimeBridge.ts:39-41 | from any state, whatever other handlers do, a channel's own steps finish all it has received and post the answers, in order |
| RuntimeBridge.Bridge.OnMessage | src/services/runtimeBridge.ts:50-86 | a message becomes a session, a queued job at the end of its channel's chain, or nothing |
| RuntimeBridge.Bridge.Answering | src/services/runtimeBridge.ts:64 | the first open channel that handles a method, or none when no open channel does |
| RuntimeBridge.Bridge.AnnounceAll | src/services/runtimeBridge.ts:61 | on `bridge.ready` each open channel sends its announcements to the new session |
| RuntimeBridge.Bridge.StartHandler | src/services/runtimeBridge.ts:68-72 | the first waiting job of a chain starts and takes the session of that moment |
| RuntimeBridge.Bridge.FinishHandler | src/services/runtimeBridge.ts:73-84 | the running job ends: its result or error is posted when it has an id and there was a session |
| RuntimeBridge.Bridge.Notify | src/services/runtimeBridge.ts:103-105 | a notification goes to the current session and is dropped without one |
| RuntimeBridge.Bridge.OpenChannel | src/services/runtimeBridge.ts:89-92 | opening adds a channel once and connects only when there is no stream |
| RuntimeBridge.Bridge.CloseChannel | src/services/runtimeBridge.ts:93-101 | closing drops the channel's queue, and with the last channel the stream, the session and all queues |
| RuntimeBridge.DocumentBridge.Request | e2e/helpers/documentBridge.ts:40-44 | a request gets the next id and goes last in the queue |
| RuntimeBridge.DocumentBridge.Get | e2e/helpers/documentBridge.ts:19-28 | a stream starts a new session and carries every queued request once, in order |
| RuntimeBridge.DocumentBridge.Accepts | e2e/helpers/documentBridge.ts:29-34 | an answer is filed under its id, an announcement in order |
| Blobs.BundleOfParsed | e2e/helpers/desktopHost.ts:217-230 | what the bundle parser accepts prints back to the same bytes |
| Blobs.ParsedOfBundle | e2e/helpers/desktopHost.ts:217-230 | what is printed parses back to the same blobs |
| Blobs.Parse | e2e/helpers/desktopHost.ts:218-230 | the loop ends and finds exactly the blobs of a well-formed bundle, each under its hash, and calls any other bundle whole |
| Blobs.ReadBlobs | e2e/helpers/desktopHost.ts:239-254 | the loop joins exactly the parts that are there under their hashes, or answers none |
| Blobs.PutAllKeeps | e2e/helpers/desktopHost.ts:231-237 | storing blobs never changes a file that is there, and each stored blob can be read |
| Blobs.KeptReads | e2e/helpers/desktopHost.ts:239-254 | a readable bundle reads the same while files are only added |
| Blobs.StoredBundleReadsBack | e2e/helpers/desktopHost.ts:216-254 | every byte string, well formed or not, reads back as it was stored |
| Documents.DirNameIsInjective | e2e/helpers/desktopHost.ts:200-203 | different document ids have different directories |
| StoreAnswers.DirNameIs | e2e/helpers/desktopHost.ts:202 | every colon of an id is escaped and nothing else |
| FileStore.Store.StoreBlobs | e2e/helpers/desktopHost.ts:218-238 | the blobs' files are written in order and the record names them |
| FileStore.Store.RecordAt | e2e/helpers/desktopHost.ts:264-278 | a checkpoint at the last recorded version is that one; another one is added, and 200 are kept |
| FileStore.Store.WriteDocumentStore | e2e/helpers/desktopHost.ts:403-436 | the checks refuse as the source orders them; otherwise the entry is written |
| FileStore.Store.WriteEntry | e2e/helpers/desktopHost.ts:408-435 | the file operations are, in order: blobs, then data files, then the manifest, then the history; a conflict stops after the blobs |
| FileStore.Store.PutData | e2e/helpers/desktopHost.ts:415-431 | an append writes its numbered change, a snapshot replaces snapshot, changes and old blobs; the manifest to come names them |
| FileStore.Store.ReplaceSnapshot | e2e/helpers/desktopHost.ts:426-430 | the four removals and writes of a snapshot, in order |
| FileStore.Store.PutNext | e2e/helpers/desktopHost.ts:432-435 | the manifest is put before the checkpoint, and the answer names the head put |
| FileStore.Store.ReadDocumentStore | e2e/helpers/desktopHost.ts:374-402 | what is answered for every state of the files, of both formats |
| FileStore.Store.ReadChanges | e2e/helpers/desktopHost.ts:388-393 | the loop stops at the first change that is missing or has another hash |
| FileStore.Store.ReadDocumentHistory | e2e/helpers/desktopHost.ts:437-441 | the checkpoints, newest first |
| FileStore.Store.RecordDocumentCheckpoint | e2e/helpers/desktopHost.ts:442-450 | a checkpoint is recorded at the head of a format-2 entry |
| FileStore.Store.ReadDocumentCheckpoint | e2e/helpers/desktopHost.ts:451-458 | the checkpoint of an id with its bundle, if it can be read |
| FileStore.Store.DeleteDocumentStore | e2e/helpers/desktopHost.ts:460-463 | the entry's directory is gone and no other is touched |
| CrashSafety.NextDescribes | e2e/helpers/desktopHost.ts:416-429 | a write is refused exactly when the log does not accept it; otherwise the new manifest describes the log after it, numbers and hashes included |
| CrashSafety.PlanPrefix | e2e/helpers/desktopHost.ts:412-434 | what the files are after any number of a write's operations |
| CrashSafety.EventKeepsInv | e2e/helpers/desktopHost.ts:403-463 | whatever call is made and wherever it is cut off, the manifest describes the log: head = snapshot number + number of changes, change i numbered i + 1 after the snapshot |
| CrashSafety.ReadIsPart | e2e/helpers/desktopHost.ts:374-402 | a read is nothing, or the log's own snapshot with a prefix of its changes, and the whole log when it says complete: bytes of two writes never mix |
| CrashSafety.IntactReadsAll | e2e/helpers/desktopHost.ts:388-398 | with every file in place a read gives exactly the last snapshot and all changes since |
| CrashSafety.DoneKeepsIntact | e2e/helpers/desktopHost.ts:403-463 | calls that end keep every file in place, and an accepted snapshot puts them in place whatever was lost |
| CrashSafety.CrashSafe | e2e/helpers/desktopHost.ts:374-463 | over any run of calls, each ended or cut off, there is one log to which each call was done or not at all; reads give part of it or nothing, and all of it when nothing was cut off since the last snapshot or delete |
| CrashSafety.CrashSafeFromNothing | e2e/helpers/desktopHost.ts:374-463 | the same for every run that starts with no files |
| CrashSafety.CutWriteGivesOldOrNew | e2e/helpers/desktopHost.ts:403-436 | a write cut off anywhere in a whole entry leaves the old entry, the new one, the start of the old one marked incomplete, or nothing |
| CrashSafety.CutRunsFollow | e2e/helpers/desktopHost.ts:403-463 | each call cut off or not, the log changes as if served or not at all |
| CrashSafety.AppendWinsOnceOnFiles | e2e/helpers/desktopHost.ts:417-422 | of two appends on one base at most one puts its manifest, with base + 1 for its head over one with the base, unless a delete comes between, whatever is cut off |
| CrashSafety.LegacyIsReadOnly | e2e/helpers/desktopHost.ts:409-425 | a format-1 entry refuses appends, whose only trace is blobs, and becomes number 1 of format 2 with a snapshot |
| CrashSafety.EventKeepsBlobs | e2e/helpers/desktopHost.ts:231-237 | no call but a delete, cut off or not, changes or removes a blob |
| CrashSafety.KeptBundlesStay | e2e/helpers/desktopHost.ts:451-458 | in a run with no delete a readable bundle reads the same ever after |
| CrashSafety.KeptCheckpointsRead | e2e/helpers/desktopHost.ts:264-278 | in a run with no delete, cut off anywhere, every kept checkpoint can give its bundle back |
| CrashSafety.KeptCheckpointsReadFromNothing | e2e/helpers/desktopHost.ts:264-278 | the same for every run that starts with no files |
| LogRuns.HeadGrows | e2e/helpers/documentStore.ts:135-143 | the head's number never falls between deletes |
| LogRuns.AppendWinsOnce | e2e/helpers/documentStore.ts:136-139 | of two appends on one base at most one takes effect between deletes |
| LogRuns.LastSnapshotAndSince | e2e/helpers/documentStore.ts:136-143 | an entry is its last snapshot and the changes accepted since, in order, numbered on from it |
| LogRuns.DeleteRestartsNumbers | e2e/helpers/documentStore.ts:167-175 | with a delete between them two appends on base 1 both win |
| MemoryStore.Store.RecordAt | e2e/helpers/documentStore.ts:88-101 | the same version twice is one checkpoint; another one is added, and 200 are kept; with an inherited method for the history it throws and changes nothing |
| MemoryStore.Store.ReadDocumentStore | e2e/helpers/documentStore.ts:115-124 | the entry, or its head, or nothing; it throws where it finds an inherited method instead |
| MemoryStore.Store.WriteDocumentStore | e2e/helpers/documentStore.ts:125-150 | the refusals in the source's order, and the new entry, head, history and answer; under an inherited name numbers are NaN, and what was stored before it throws stays |
| MemoryStore.Store.ReadDocumentHistory | e2e/helpers/documentStore.ts:151-154 | the checkpoints, newest first; it throws on an inherited method |
| MemoryStore.Store.RecordDocumentCheckpoint | e2e/helpers/documentStore.ts:155-160 | a checkpoint is recorded at the entry's head; it throws on an inherited method |
| MemoryStore.Store.ReadDocumentCheckpoint | e2e/helpers/documentStore.ts:161-165 | the search finds the first checkpoint of that id; it throws on an inherited method |
| MemoryStore.Store.DeleteDocumentStore | e2e/helpers/documentStore.ts:167-178 | entry, head and history go |
| MemoryStore.StepServesLog | e2e/helpers/documentStore.ts:114-178 | every call, under whatever name, changes the log of its own entry as the common rule says and no other entry's |
| MemoryStore.PutServesLog | e2e/helpers/documentStore.ts:134-145 | a write to an entry of a plain name is accepted exactly when it names its document and the log accepts it |
| MemoryStore.ReadsLog | e2e/helpers/documentStore.ts:115-124 | a read answers the whole log of its entry, exactly when the document is not named like an inherited method |
| StoresAgree.EntriesAnswerTheirLogs | e2e/helpers/documentStore.ts:114-178 | after any run of calls on all entries, an entry reads as the log its own calls served, in order, exactly when it is not named like an inherited method |
| StoresAgree.RecordsAgree | e2e/helpers/desktopHost.ts:264-278 | from the same history and head both stores record the same checkpoint, or find the same one |
| StoresAgree.RefusalsAgree | e2e/helpers/documentStore.ts:132-141 | both stores refuse a write for the same reason or accept it, exactly unless it appends without a base under an inherited name |
| StoresAgree.StepAgrees | e2e/helpers/desktopHost.ts:374-464 | one call on both stores gives the same answer exactly when it is on a plain name or ends before it uses an inherited method, and then leaves them the same: head, changes, `compact`, history |
| StoresAgree.StoresAnswerAlike | e2e/helpers/documentStore.ts:114-178 | from empty stores a sequence of calls without blobs is answered alike exactly when each call is on a plain name or ends before it uses an inherited method, and brings its contents or is refused earlier |
| StoresAgree.ConstructorDiffers | e2e/helpers/documentStore.ts:117-121 | the document `constructor`, a valid id: the store in memory throws on a read and numbers a snapshot NaN, where the files answer nothing and 1 |
| StoresAgree.AlikeExactlyWhenBrought | e2e/helpers/documentStore.ts:141 | one call without blobs is answered alike exactly when it looks up well and brings changes or a snapshot, or is refused before that is looked at |
| StoresAgree.AlikeExactlyWhenNamed | e2e/helpers/documentStore.ts:96 | a new checkpoint has the same author and label in both exactly when neither is empty |
| StoreAnswers.FilesCheckFirst | e2e/helpers/desktopHost.ts:172-203 | a call for another workspace, and no other, is refused for that; of the rest one with an improper id, and no other, is refused for that; neither changes a file |
| StoreAnswers.MemoryChecksFirst | e2e/helpers/documentStore.ts:86-108 | the same of the store in memory |
| StoreAnswers.WritesNameTheirDocument | e2e/helpers/desktopHost.ts:406-407 | both stores refuse a write whose meta names another document, and only such a one for that |
| StoreAnswers.FilesConflictExactly | e2e/helpers/desktopHost.ts:416-417 | an append conflicts exactly when it is not on the head of a format-2 entry, and a snapshot never does |
| StoreAnswers.FilesAnswerHead | e2e/helpers/desktopHost.ts:433 | an accepted write answers the number and version of the log's head after it, and asks to compact from 64 changes on |
| StoreAnswers.MemoryAnswersHead | e2e/helpers/documentStore.ts:146 | the same of the store in memory |
| StoreAnswers.FilesRecord | e2e/helpers/desktopHost.ts:264-278 | which checkpoint a call records, with which version, number and blobs, when it is the last one again, and that the newest 200 are kept |
| StoreAnswers.MemoryRecords | e2e/helpers/documentStore.ts:88-101 | the same of the store in memory, which drops empty authors and labels |
| StoreAnswers.LegacyIsRead | e2e/helpers/desktopHost.ts:380-387 | an entry of format 1 is read whole, as number 0, exactly while its files have their hashes |
| FreeNames.UnusedBound | e2e/helpers/kitGrants.ts:53-60 | with n names one of the first n + 1 candidates is free, because candidates differ |
| FreeNames.FindUnused | e2e/helpers/kitGrants.ts:53-60 | the loop ends with the first free candidate after at most n + 1 probes |
| FreeNames.CandidateKeepsExtension | e2e/helpers/kitGrants.ts:54-57 | every candidate has the name's extension |
| FreeNames.UnusedKeeps | e2e/helpers/kitGrants.ts:53-60 | the name found is free, keeps the extension, and is hidden only if the suggestion was |
| FreeNames.ExtensionIs | e2e/helpers/kitGrants.ts:12 | an extension is what follows the last dot, in lower case, unless the name starts with that dot |
| FreeNames.CandidatesAre | e2e/helpers/kitGrants.ts:57 | a numbered candidate has a blank and the number before its extension, or at its end |
| FreeNames.UniqueBound | e2e/helpers/desktopHost.ts:176-186 | with n names at most 2n + 1 candidates are taken as a file or as a sibling folder, n + 1 without siblings |
| FreeNames.UniqueName | e2e/helpers/desktopHost.ts:176-186 | the loop ends with the first candidate that is not taken, within that bound; it has the extension asked for exactly unless `..` was numbered |
| FreeNames.KeepsExtensionExactly | e2e/helpers/desktopHost.ts:177-184 | every numbered candidate has the extension of the name, exactly unless the name is `..` and the number is not 1 |
| KitGrants.AfterLastSlashIs | e2e/helpers/kitGrants.ts:99 | the suggested name is what follows the last slash or backslash |
| GrantAnswers.InsideExactly | e2e/helpers/kitGrants.ts:30-35 | the paths accepted are exactly those written as visible names with slashes between and in front |
| GrantAnswers.SuggestedIs | e2e/helpers/kitGrants.ts:99 | the suggested name is the last part of the path without the dots it starts with, or `Untitled` |
| GrantAnswers.AskGrantsExactly | e2e/helpers/kitGrants.ts:85-95 | a file is granted exactly when it is there, or free for a create, and the session declared what is asked; which refusal it is otherwise; and what the grant holds |
| GrantAnswers.OtherPathsAreRefused | e2e/helpers/kitGrants.ts:86-89 | every other path is refused and grants nothing |
| GrantAnswers.MakeGrantsExactly | e2e/helpers/kitGrants.ts:96-104 | a file is made exactly with a folder handle that may create, or none, and a declared extension |
| GrantAnswers.ListAnswersExactly | e2e/helpers/kitGrants.ts:109-115 | a folder is listed exactly through a folder handle with a read right while it is there |
| GrantAnswers.SessionOpensExactly | e2e/helpers/kitGrants.ts:67-73 | a session opens at the root or beside a document, exactly for no document or a proper path |
| GrantAnswers.ReleaseAndEnd | e2e/helpers/kitGrants.ts:78-108 | exactly the handles released, or all of an ended session, are gone |
| KitGrants.StepKeepsSound | e2e/helpers/kitGrants.ts:62-150 | every request and every change by other programs keeps: handles below the root and hidden nowhere, extensions declared for each right, no write right in a read-only session |
| KitGrants.RenamedKeeps | e2e/helpers/kitGrants.ts:140-144 | the rename at a commit keeps folder and extension and finds a free name |
| KitGrants.StagedIsPending | e2e/helpers/kitGrants.ts:131-139 | what is staged is what was accepted since the last finalization, at contiguous offsets from 0 |
| KitGrants.StagedIsPendingAll | e2e/helpers/kitGrants.ts:131-139 | the same over any interleaving of requests |
| KitGrants.CommitIs | e2e/helpers/kitGrants.ts:137-147 | a commit writes the staged bytes and the last chunk and nothing else; a create over no file and once, a write only over the version it names |
| KitGrants.CommittedBytes | e2e/helpers/kitGrants.ts:131-149 | over any run the committed bytes are the chunks accepted since the last finalization, in order |
| GrantAnswers.WriteCommitsExactly | e2e/helpers/kitGrants.ts:138-149 | a last post to a write handle commits exactly when the file is there and is the version named, and then writes the bytes posted; otherwise nothing is written and the refusal says why |
| GrantAnswers.CreateCommitsExactly | e2e/helpers/kitGrants.ts:138-149 | a last post to a create handle commits exactly when its folder is there and its name is free or the handle was made; the file is new, and the handle spent exactly then |
| GrantAnswers.PostRefusedExactly | e2e/helpers/kitGrants.ts:109-135 | a post is refused for a missing handle or right, a spent handle or another offset exactly then, and nothing changes |
| GrantAnswers.ChunkIsStaged | e2e/helpers/kitGrants.ts:134-137 | any other post but the last is staged behind the bytes that are there |
| KitGrants.CreatesCommitOnce | e2e/helpers/kitGrants.ts:133 | a create handle that has committed never commits again, whatever follows |
| KitGrants.CreatedFilesDiffer | e2e/helpers/kitGrants.ts:140-147 | two commits of create handles have different files unless another program deletes one in between |
| KitGrants.MadeIsReady | e2e/helpers/kitGrants.ts:96-104 | a handle that is made has a free name with the suggested, declared extension |
| KitGrants.MadeHandleCommits | e2e/helpers/kitGrants.ts:140-147 | such a handle commits with its first final post: a taken name is no conflict |
| KitGrants.MadeHandlesAllCommit | e2e/helpers/kitGrants.ts:140-147 | n handles that are ready for one folder commit to n different new files there |
| KitGrants.MakesAllCommit | e2e/helpers/kitGrants.ts:96-147 | n create requests for one folder, under one suggested name or several, and then a final post to each: all are granted, and they commit to n different new files there |
| KitGrants.FileHandleCommitsDeclared | e2e/helpers/kitGrants.ts:92-147 | through a file handle only declared extensions are committed, also after a rename |
| KitGrants.FolderHandleCommitsUndeclared | e2e/helpers/kitGrants.ts:92-147 | a folder handle with a create right can commit a file whose extension the session did not declare |
| KitGrants.CommitsDeclaredExactly | e2e/helpers/kitGrants.ts:92-147 | the file of a commit has a declared extension exactly when its handle is one of a file, or of a folder named with a declared extension |
| KitGrants.KitFiles.Open | e2e/helpers/kitGrants.ts:67-73 | a session begins beside its document, or is refused for a hidden or outside path |
| KitGrants.KitFiles.AskFor | e2e/helpers/kitGrants.ts:85-95 | a grant or its refusal, as the source orders the checks |
| KitGrants.KitFiles.MakeFile | e2e/helpers/kitGrants.ts:96-104 | a create handle in the folder or beside the document, under a free name |
| KitGrants.KitFiles.ListFolder | e2e/helpers/kitGrants.ts:113-119 | the loop grants a read handle for each visible name, each once, or refuses |
| KitGrants.ListGrantsVisible | e2e/helpers/kitGrants.ts:113-119 | a listing grants exactly one read handle for each visible name in the folder, and no other |
| KitGrants.KitFiles.ReleaseAll | e2e/helpers/kitGrants.ts:105-108 | exactly the named handles go |
| KitGrants.KitFiles.End | e2e/helpers/kitGrants.ts:78-81 | the session and its handles go |
| KitGrants.KitFiles.PostContent | e2e/helpers/kitGrants.ts:131-149 | the refusals in order, the chunk staged, or the file finalized; `GrantAnswers` says exactly when each |
| KitGrants.KitFiles.Finish | e2e/helpers/kitGrants.ts:138-149 | conflict, rename, version check and write, with the handle left as it is in each case |
| AgentStream.ReadAgentMessageStream | src/api/agentStream.ts:20-56 | the reader's deliveries and ending are those of the lines of the whole text, however it is cut into chunks |
| AgentStream.DeliveredIs | src/api/agentStream.ts:32-37 | it delivers the non-blank lines up to and including the first idle, stops before the first bad line, and is interrupted exactly when there is neither |
| AgentStream.InterruptedMeansNoIdle | src/api/agentStream.ts:40-51 | an interruption is reported exactly when every line that is not blank parses and none is idle |
| AgentStream.AgentTurnScript.Emit | e2e/helpers/agentStream.ts:63-68 | an event goes to the log and to the stream with the log's length as its number |
| AgentStream.AgentTurnScript.NextStep | e2e/helpers/agentStream.ts:71-74 | the step counts up and is logged |
| AgentStream.AgentTurnScript.StreamText | e2e/helpers/agentStream.ts:77-88 | a new attempt streams two frames with the next revisions and logs nothing |
| AgentStream.AgentTurnScript.StreamToolCall | e2e/helpers/agentStream.ts:91-110 | an attempt, its message in the log, and the frame that settles it |
| AgentStream.AgentTurnScript.Tool | e2e/helpers/agentStream.ts:113-130 | a call and its result, in the script's scope |
| AgentStream.AgentTurnScript.Deliver | e2e/helpers/agentStream.ts:133-138 | the files are logged and streamed |
| AgentStream.AgentTurnScript.Reply | e2e/helpers/agentStream.ts:141-150 | a reply opens a first step if there is none, then streams, logs and settles |
| AgentStream.AgentTurnScript.End | e2e/helpers/agentStream.ts:153-156 | the turn's end is logged and streamed |
| AgentStream.AgentTurnScript.Interrupt | e2e/helpers/agentStream.ts:159-162 | the script is interrupted and nothing else changes |
| AgentStream.AgentTurnScript.Finish | e2e/helpers/agentStream.ts:165-172 | running, the turn, and idle unless interrupted; a turn that neither ended nor was interrupted logs that it completed, and one that was not interrupted has its end in the log |
| AgentStream.CalledKeeps | e2e/helpers/agentStream.ts:63-162 | every call keeps: log event i numbered i, the stream's events exactly those logged this turn, frame i with revision i + 1, each settled frame settling the attempt begun just before by its own message |
| AgentStream.ScriptKeeps | e2e/helpers/agentStream.ts:63-162 | the same after any calls in any order |
| AgentStream.SplitNdjson | e2e/helpers/agentStream.ts:37-40 | the printed text splits back into the printed lines |
| AgentStream.ScriptReadsBack | e2e/helpers/agentStream.ts:165-172 | reading what any script wrote delivers exactly its lines, confirmed exactly when it was not interrupted |
| AgentStream.TurnReadsBack | e2e/helpers/agentStream.ts:165-172 | the same for a whole turn from a new script on a numbered log, which it leaves numbered |
| AgentStream.TurnsEnd | e2e/helpers/agentStream.ts:165-172 | after any calls, what is streamed starts with running and, unless interrupted, holds the turn's end and closes with idle |
| AgentStream.ReplyTurn | e2e/helpers/agentStream.ts:141-172 | every line of a turn that is one reply |
| AgentStream.ToolTurn | e2e/helpers/agentStream.ts:71-156 | every line of a turn that calls a tool and hands over files |
| AgentStream.FollowerGetsEachOnce | e2e/helpers/agentStream.ts:204-212 | following the cursor while turns append yields each event once and in order |
| Settings.SomeUrlPrints | src/services/desktopSettings.ts:163-175 | parsers as the model takes them exist, with URLs whose path can be set and opaque ones |
| Settings.BaseUrlTwice | src/services/desktopSettings.ts:157-179 | normalizing a base URL, opaque or not, twice is normalizing it once, exactly for steady ones |
| Settings.PathIsAppended | src/services/desktopSettings.ts:164-174 | a bare URL gets its provider's path exactly when its path is not opaque, and otherwise stays bare |
| Settings.SlashesGoOneByOne | src/services/desktopSettings.ts:175 | `https://h//` loses one slash at each pass: normalizing it is not idempotent |
| Settings.LegacyHasRetired | src/services/desktopSettings.ts:307-311 | as many different names as there are legacy ones, all legacy, contain a retired one |
| Settings.DiscoveredAre | src/services/desktopSettings.ts:303-311 | one pass leaves different names with no blanks around them, and for the cloud none that is retired |
| Settings.BuildIsSound | src/services/desktopSettings.ts:27-120 | the catalog, shortcuts, choices and model sets of the build are as the settings proofs take them |
| Settings.DiscoveredTwice | src/services/desktopSettings.ts:303-311 | the models are settled after one pass: the legacy test cannot fire on its own output |
| Settings.ProviderTwice | src/services/desktopSettings.ts:312-320 | a provider is settled after one pass exactly when its base URL is steady |
| Settings.DisplayTwice | src/services/desktopSettings.ts:394-413 | the display settings are settled after one pass |
| Settings.Zoom | src/services/desktopSettings.ts:396-399 | the zoom is a whole number of twentieths from 0.85 to 1.5, and such a zoom is kept |
| Settings.NotificationsTwice | src/services/desktopSettings.ts:415-425 | the notification policy is settled after one pass |
| Settings.NormalizeHooks | src/services/desktopSettings.ts:427-452 | the loop keeps the hooks with an id, normalized, in order |
| Settings.HooksTwice | src/services/desktopSettings.ts:427-452 | normalized hooks stay as they are, each of them |
| Settings.ShortcutsTwice | src/services/desktopSettings.ts:323-327 | the shortcuts are settled after one pass |
| Settings.SelectedTwice | src/services/desktopSettings.ts:333-359 | the selected models are settled after one pass |
| Settings.PreferredTwice | src/services/desktopSettings.ts:340-348 | the preferred models are settled after one pass |
| Settings.NormalizedTwice | src/services/desktopSettings.ts:295-381 | normalizing normalized settings, whatever their secrets, changes nothing, exactly when every base URL is steady |
| SettingsKept.KeepsGeneral | src/services/desktopSettings.ts:362-367 | theme and translation language given are kept if they are choices, the language as it is |
| SettingsKept.KeepsDisplay | src/services/desktopSettings.ts:394-413 | texts that are choices and flags are kept, sizes and zoom are the nearest allowed ones |
| SettingsKept.KeepsNotifications | src/services/desktopSettings.ts:415-425 | each flag of the policy is kept as given, or true, and the threshold is the nearest whole number in its bounds |
| SettingsKept.KeepsHooks | src/services/desktopSettings.ts:427-452 | every hook with an id is kept, in order, with each of its fields, cut to its length |
| SettingsKept.KeepsShortcuts | src/services/desktopSettings.ts:323-327 | each default shortcut is the last one given under its id, or itself |
| SettingsKept.KeepsProviders | src/services/desktopSettings.ts:301-321 | every field of a provider is as given or as in the catalog; its base URL has its provider's path or one slash less; its models are those given, once and in order, but retired ones of the cloud |
| SettingsKept.KeepsActive | src/services/desktopSettings.ts:329-332 | the active provider is the one named, or the cloud |
| SettingsKept.KeepsSelected | src/services/desktopSettings.ts:333-358 | the models chosen are kept; the cloud's is one it serves and, when active, offers, or the first that is likely to write text |
| SettingsKept.KeepsPreferred | src/services/desktopSettings.ts:336-348 | preferred models are kept, but a retired one while the cloud is active |
| SettingsKept.KeepsSecrets | src/services/desktopSettings.ts:531-586 | a save keeps the secret given, or the stored one unless it is to be cleared; a load prefers the stored one |
| Settings.SettingsStore.Hydrate | src/services/desktopSettings.ts:531-552 | stored secrets win and those only in the settings are stored |
| Settings.SettingsStore.PersistSecrets | src/services/desktopSettings.ts:554-586 | requested secrets are stored, cleared ones deleted, others kept, and none is left in what is saved |
| Settings.SettingsStore.Save | src/services/desktopSettings.ts:278-293 | what is returned, stored, backed up and kept in the secure store |
| Settings.SettingsStore.Load | src/services/desktopSettings.ts:256-276 | the stored settings, or the backup, or the defaults, normalized and with their secrets |
| Settings.LoadAfterSave | src/services/desktopSettings.ts:256-293 | loading after a save gives exactly what the save answered, if and only if every base URL is steady |
| Settings.SettingsStore.SaveAndLoad | src/services/desktopSettings.ts:256-293 | a save and a load give the same settings exactly then, and what is stored holds no secret |
| Settings.RedactedHoldsNone | src/services/desktopSettings.ts:582 | saved settings hold no provider secret |
| LineDiff.TightIsMinimal | e2e/helpers/noteKit.ts:103-110 | a block that ends at its sides is no longer than any other single-block replacement |
| LineDiff.LineDiff | e2e/helpers/noteKit.ts:100-112 | replacing `removed` by `added` turns one text into the other, no single block is smaller, and both are empty exactly when the texts are equal |
| Text.SplitAppend | src/api/agentStream.ts:44-46 | appending text changes only the last, unfinished part |
| Text.DecimalIsInjective | e2e/helpers/kitGrants.ts:57 | different numbers print differently |

## Left out

- The document index of both stores: its guard is a single version comparison.
- The checks of types at run time: calls are well typed, so a checkpoint without an origin is not a call of the model.
- The mock store's counters and the hooks that make its writes fail.
- Writes torn inside one file, and the folders that `mkdir` makes: a cut falls between file operations or inside the removal of a directory.
- Concurrent handlers of one store entry or of one grant session: one call is one step, except where it is cut off.
- JSON, base64 and UTF-8: printing and parsing is the identity; a chunk of the agent stream is text; paths and keys are already bytes where bytes are hashed.
- The abort signal of the reader, and a listener or handler that throws where the source does not catch it.
- Names with a slash in `uniqueName`, and file systems that fold case.
- Reentrant followers, and documents whose path changes.
- The order in which `follow` visits paths and in which cleanups of different documents are called.
- The bridge: timing of reconnects, the payload of handlers and the `data` of a refusal, and a post that fails.
- A line of the agent stream that parses to something other than a notification.
- Grants: reading content and its ranges, `stat`, the log kept for specs, and the order of identifiers.
- Presence, leases, comments, schema notices, the proxy, the portal account and application updates, which share no state with the cores above.
- CrashSafety.CrashSafe: takes the hash to be free of collisions among the contents of the run, since no 64-character hash is so for all byte strings.
- Settings.Zoom: works in exact reals, so the rounding of binary fractions before `toFixed(2)` is not modelled.
- Settings.BaseUrlTwice: the URL parser is a parameter. Of a bare URL whose path can be set it is taken that it prints with the path set, and of one whose path is opaque that it prints as itself, in both cases without blanks and also without a last slash; and that a slash behind the latter text leaves it bare.
- AgentStream.ScriptReadsBack: the turn's first events and its number are calls of the script like any other.
- OpenDocuments.Registry.Follow: takes a function that does not follow at the moment; one that follows again without having unfollowed hears every document twice, and its second cleanup replaces the first.
- MemoryStore.Store.WriteDocumentStore: a reload of the page, which would turn a number NaN to null.
- SignedPaths.SignedPathVerifies: takes a path in ASCII, as its caller must percent-encode it; `SignedPartIsRead` says what becomes of others.
