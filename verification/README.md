# Verification of Pipee's core protocols and algorithms

A Dafny model of six parts of the Pipee repository whose correctness does not show in any
single function:

- **The line diff** of the file viewer: a Myers O(ND) search over one array, its backtrack
  through snapshots, and the view that collapses unchanged lines (`EditDistance`, `MyersDiff`,
  `MyersScripts`, `MyersLiteral`, `DiffLines`, `DiffView`).
- **The Weixin bridge**: a durable state (no batch, collecting, dispatching; a window of
  processed ids; a cursor) driven by a batch processor that may stop between any two steps
  (`WeixinState`, `WeixinMessage`, `WeixinDelivery`, `WeixinAccounts`, `WeixinPass`, `WeixinBridge`).
- **Crash-safe directory replacement** by two renames (`DirectoryReplacement`).
- **Web surfaces**: host controllers, the published list, the per-session channel, the page's
  port and the client in the frame (`WebSurfaceHost`, `WebSurfaceChannel`, `WebSurfacePort`,
  `WebSurfaceClient`).
- **Runtime retention**: the reference-counted runtime, the retention slot and the host's table
  (`RetentionSlot`, `RetentionOwner`).
- **Two tree algorithms**: the presentation validator and the canonical JSON printer behind
  message identities (`Presentation`, `CanonicalJson`, `MessageIdentity`).

`Prelude` holds what they share. `dafny verify dfyconfig.toml` verifies everything.

Code that changes things in place is modelled by classes and loops (the search array, the store
and the gateway log of a bridge, the disk, the host's controllers, the pending tables, the
consumers of the runtime); pure code by functions. A class's `Valid` or `Tracked` predicate is the
invariant that every method keeps, and the lemmas beside it say what follows from it.

## Where the code does not do what it promises

- **`diffLines` returns a wrong diff for many inputs.** Its comment promises a line-level diff. A
  snapshot is pushed before its round (FileViewer.tsx:121), so step dd of the backtrack needs
  `trace[dd]`, but line 141 reads `trace[dd - 1]`. `DiffAsWritten` keeps the code's index and proves
  exactly when the result is a diff of the two files: once the longest common suffix is taken off,
  at most one old line is left and it does not occur among the new lines left.
  `AppendedLineIsLost` is a failing input; `DiffMended` proves that `trace[dd]` makes the
  result a shortest diff for all inputs. The forward search is right as it stands.
- **The bridge can lose a message.** A text for one session that arrives while another session's
  images are being collected leaves the state unchanged (state.ts:162-164 and 224-225), is not marked
  (bridge.ts:339-353), and the cursor moves past it (bridge.ts:396). `TextIsLost` is such a run. With
  distinct ids it is the only way to lose one: in every run each message behind the cursor was
  recorded, and settled, or is a text that was passed over in this way (`Run`, `HandledRecords`).
  Pictures alone wait for the other session's batch instead, at most until its deadline as it was
  when they first stopped a pass (`StopsAtFirstPicture`, `PictureWaits`).
- **`dispose` publishes no removal.** After it, a page keeps showing the last published surface of a
  registration that was never released (`DisposeLeavesSurface`); a page is shut after closing and
  `dispose` exactly if nothing was registered for it before (`ShutDown`).
- **A session id that is acquired again while it is listed** displaces the earlier consumer, which is
  not told (`TwoHostsRetain`). Two hosts then retain exactly if the oldest consumer's host retained and
  the new session has its id (`Acquire`, `Start`).
- **A NUL inside an id makes two batches one.** Two batches share an identity exactly if their ids, cut
  at NULs, are the same pieces (`BatchIdentityIsExact`).
- **`processedLimit` 0 switches the bound off** (`NoLimitNoBound`).

## What the model takes for granted

- One store update is atomic: a temporary file and a rename (state.ts:83-104). A step that ends a pass
  may have taken effect or not. A poll returns by its timeout. A rename that reports a failure had no
  effect; a directory rename does not replace an existing target. One process writes at a time.
- The server's stream has an order, and a repeated poll brings at least the messages that an earlier
  one brought past the cursor, in that order; at most `processedLimit` messages lie between the saved
  cursor and the last one delivered. `Run` covers exactly the runs that obey this, with no account
  change in them.
- The ids in the stream are distinct. In the code two messages without id and client id and with equal
  content have one hash (message.ts:134), so the second is skipped as already processed (bridge.ts:270).
- SHA-256 is injective and prints hex digits. `localeCompare` is any total order on keys; a number is
  its printed numeral; strings are sequences of Unicode scalar values, or of UTF-16 code units where
  lengths are counted.
- `surface-<now>-<n>` and the base64url of an owner are injective encodings. A host's admitted
  candidates do not change. The UI runtime publishes one event per commit and a page reads the events
  of a session in order.
- Each session of the retention chain has its own host, and only its slot uses its key there.

## Model

| member | source | states |
|---|---|---|
| `DiffLines.DiffAsWritten` | apps/pipee/src/components/FileViewer.tsx:112-187 | The program as it stands always shows as many changed lines as the shortest diff has, and each entry has the text and number of the place where the walk stands; but its result spells the two files, with right texts and line numbers, if and only if at most the first old line was touched (`OnlyFirstLineTouched`) |
| `MyersLiteral.LiteralCorrectExactly` | apps/pipee/src/components/FileViewer.tsx:121-187 | The same if-and-only-if for the backtrack alone, on any trace that the search can leave: it is a condition on the two files that a caller can check beforehand |
| `MyersLiteral.LiteralNecessary` | apps/pipee/src/components/FileViewer.tsx:140-176 | If the result is a diff of the two files, then after taking off the longest common suffix at most one old line is left and it does not occur among the new lines left |
| `MyersLiteral.LiteralSufficient` | apps/pipee/src/components/FileViewer.tsx:140-176 | Whenever that condition holds, the backtrack as written returns a diff of the two files |
| `DiffLines.AppendedLineIsLost` | apps/pipee/src/components/FileViewer.tsx:112-187 | Old `a`, new `a`,`b`: the program returns added `a`, unchanged `a`; `b` is shown nowhere |
| `DiffLines.DiffMended` | apps/pipee/src/components/FileViewer.tsx:112-187 | With `trace[dd]` read instead of `trace[dd - 1]`, the result spells both files with right texts and numbers, no diff that spells them has fewer changed lines, and their number is m + n minus twice the longest common subsequence |
| `DiffLines.MendedIsShortest` | apps/pipee/src/components/FileViewer.tsx:137-187 | The same for the backtrack alone, on any trace that the search can leave |
| `MyersScripts.MendedScript` | apps/pipee/src/components/FileViewer.tsx:140-186 | From the furthest point of round dd, the mended backtrack returns a diff of the prefixes up to that point |
| `MyersScripts.BackChanges` | apps/pipee/src/components/FileViewer.tsx:140-177 | Every round of the backtrack emits exactly one changed line, whichever snapshot it reads |
| `MyersDiff.Search` | apps/pipee/src/components/FileViewer.tsx:112-190 | The round in which the search ends is the length of the shortest insert/delete script, for all inputs; the snapshot pushed before round r holds, per diagonal, the furthest point that the last round of its parity reaches |
| `MyersDiff.Round` | apps/pipee/src/components/FileViewer.tsx:122-189 | A round finds the corner if and only if its number is the shortest length; otherwise the array holds what the next round needs |
| `MyersDiff.VisitDiagonal` | apps/pipee/src/components/FileViewer.tsx:122-135 | One diagonal: the array stays right, and an exit test that succeeds does so in the right round only |
| `MyersDiff.AdvanceDiagonal` | apps/pipee/src/components/FileViewer.tsx:124-133 | The slide ends at the furthest point on its diagonal that d edits reach, on the unbounded grid |
| `MyersDiff.FirstExitIsCorner` | apps/pipee/src/components/FileViewer.tsx:135 | Although points may leave the grid, the first one that passes the exit test is (m, n) itself |
| `EditDistance.BeyondCorner` | apps/pipee/src/components/FileViewer.tsx:135 | Clamping: a point past the corner costs at least as much more as it lies beyond it |
| `EditDistance.NoShorterScript` | apps/pipee/src/components/FileViewer.tsx:112-187 | No diff that spells both files has fewer changed lines than the distance |
| `EditDistance.DistIsLongestCommon` | apps/pipee/src/components/FileViewer.tsx:112-187 | The distance is m + n - 2n' if and only if n' is the length of a longest common subsequence |
| `MyersDiff.Backtrack` | apps/pipee/src/components/FileViewer.tsx:137-187 | The loop that walks back and puts entries in front builds the same list as its recursive meaning, for either index |
| `MyersDiff.StepBack` | apps/pipee/src/components/FileViewer.tsx:140-177 | One round of the loop, with comparisons against an `undefined` array entry false as in JavaScript |
| `DiffView.DiffView` | apps/pipee/src/components/FileViewer.tsx:205-327 | Every diff line is covered once and in order; it is shown, with its number, if and only if it is within three lines of a change; a collapsed run hides at least one line and two never meet; there is no view if and only if nothing changed |
| `DiffView.VisibleLines` | apps/pipee/src/components/FileViewer.tsx:216-222 | The set of indices to show is exactly the set of lines within three lines of a change |
| `DiffView.Segments` | apps/pipee/src/components/FileViewer.tsx:233-256 | The segments, expanded in order, are the diff with its hidden lines blanked; none is empty and shown and hidden ones alternate |
| `DiffView.NewLineNumbers` | apps/pipee/src/components/FileViewer.tsx:259-267 | An added or unchanged line gets 1 plus the number of earlier lines of the new file, a removed one 0 |
| `DiffView.Render` | apps/pipee/src/components/FileViewer.tsx:268-324 | The rows, read in order, show each visible line with its printed number and leave out the others |
| `DiffView.PrintedNumberIsRight` | apps/pipee/src/components/FileViewer.tsx:259-267 | In a diff that spells both files, the number printed beside a line that was not removed is that very line's number in the new file |
| `DirectoryReplacement.ReplaceDirectoryWithRollback` | extensions/chrome/scripts/directory-replacement.ts:59-129 | Stopped or failing at any call, the published tree is the old one or the new one that validation accepted; one fault that does not stop the process leaves the destination in place with the old tree or the accepted one, and, unless it was a removal, no other entry behind; a stage stays only when its removal fails; success means that the new tree stands alone; several backups are never touched; an undisturbed run succeeds if and only if the new tree is accepted, and leaves no stage or backup |
| `DirectoryReplacement.ManyRuns` | extensions/chrome/scripts/directory-replacement.ts:28-129 | Any number of runs, each disturbed anywhere: what is published is the first tree or one that some run accepted, and a second backup never appears |
| `DirectoryReplacement.RecoverInterruptedReplacement` | extensions/chrome/scripts/directory-replacement.ts:28-57 | Recovery keeps the published tree, success leaves nothing but the destination, several backups are refused untouched, and with at most one backup it succeeds when undisturbed |
| `DirectoryReplacement.PublishStaging` | extensions/chrome/scripts/directory-replacement.ts:77-112 | The two renames with rollback: the published tree changes to the accepted plan or not at all, at most one backup exists, and one fault leaves the old tree or the accepted plan at the destination itself and no backup but one that could not be removed |
| `DirectoryReplacement.SwapIn` | extensions/chrome/scripts/directory-replacement.ts:88-109 | When the stage cannot take the destination, the backup comes back: one fault leaves the plan or the tree of the backup there |
| `DirectoryReplacement.RemoveStages` | extensions/chrome/scripts/directory-replacement.ts:38-41 | Dropping stale stages leaves everything else and what is published alone |
| `DirectoryReplacement.PublishesSomething` | extensions/chrome/scripts/directory-replacement.ts:49-56 | With at most one backup, exactly one tree or none is published |
| `WeixinState.StoreKeeps` | extensions/weixin/src/state.ts:149-304 | After any sequence of store operations from the empty state: processed ids are distinct and within the limit, members of the pending batch are distinct, its images are its members' images in order, and a dispatching batch has the identity of its members |
| `WeixinState.DispatchingIsFrozen` | extensions/weixin/src/state.ts:199-304 | A dispatching batch stays as it is under every operation except its own completion and an account reset, which remove it |
| `WeixinState.AppendKeeps` | extensions/weixin/src/state.ts:157-179 | A message that joins a batch is a new last member with its images last, the earlier members and images stay; one that is a member already changes nothing; the images stay the members' images in order |
| `WeixinState.NoLimitNoBound` | extensions/weixin/src/state.ts:154 | With limit 0 the list is not cut: a new id is added to whatever is there, in every state |
| `WeixinState.InboundKeeps` | extensions/weixin/src/state.ts:199-263 | Each inbound transition keeps the batch and window invariants |
| `WeixinState.TokenStaysWithAccount` | extensions/weixin/src/state.ts:270-304 | After any sequence of store operations, a stored context token was saved under the account that is signed in now, with no other account, nor nobody, signed in since |
| `WeixinState.TokenIsKept` | extensions/weixin/src/state.ts:270-304 | A saved token is kept while its account stays signed in, also when that account signs in again |
| `WeixinState.SettingsAreTheLatest` | extensions/weixin/src/state.ts:270-304 | After any sequence of store operations the default session is the one chosen last, also across a logout; the switch is as last set or off after a logout; the cursor is the one saved last or 0 after signing in, out or over; the account is the one signed in last |
| `WeixinState.ResetForgets` | extensions/weixin/src/state.ts:270-304 | After signing in, out or over, the cursor, the processed ids and the batch are those of the later operations alone |
| `WeixinMessage.PartByPart` | extensions/weixin/src/message.ts:94-110 | The lines of the prompt, the pictures and the references of a message are those of its parts, in order: splitting the parts anywhere splits each of the three lists |
| `WeixinMessage.OnePart` | extensions/weixin/src/message.ts:94-110 | What each kind of part contributes: a voice transcript its text, a text its text below its quotation, a picture its image when it has one |
| `WeixinMessage.PromptNeedsText` | extensions/weixin/src/message.ts:103-110 | There is a prompt if and only if some part has text |
| `WeixinMessage.FirstReference` | extensions/weixin/src/message.ts:94-99 | A message refers to what its first text part with a reference refers to |
| `WeixinDelivery.JoinKeeps` | extensions/weixin/src/state.ts:199-244 | A message that joins the batch and is recorded in the same write keeps the history good |
| `WeixinDelivery.SayTextKeeps` | extensions/weixin/src/bridge.ts:359-373 | Sending a text under its own id, for the first time or again after a crash, keeps the history good |
| `WeixinDelivery.SayBatchKeeps` | extensions/weixin/src/bridge.ts:201-219 | Sending a dispatching batch, for the first time or again, keeps the history good |
| `WeixinDelivery.CursorKeeps` | extensions/weixin/src/bridge.ts:396 | Saving a cursor that is past everything delivered keeps the history good |
| `WeixinDelivery.WindowAfterRecording` | extensions/weixin/src/state.ts:149-155 | With at most `processedLimit` messages past the cursor, nothing recorded since the cursor falls out of the list |
| `WeixinDelivery.PictureIsUnsaid` | extensions/weixin/src/bridge.ts:318-336 | An unrecorded message with pictures, without text, or met while a batch collects, was never sent to the gateway |
| `WeixinDelivery.NoTextInDoubt` | extensions/weixin/src/bridge.ts:264-386 | When a message without text is handled for the first time, every text that was sent is recorded |
| `WeixinAccounts.SettledGoes` | extensions/weixin/src/bridge.ts:264-386 | What a message was settled by is not undone by anything that keeps the logs and speaks for the members that leave the batch |
| `WeixinAccounts.ClearKept` | extensions/weixin/src/bridge.ts:201-227 | A batch may be dropped once its request was made or given up: each member is then settled by it |
| `WeixinAccounts.JoinFits` | extensions/weixin/src/state.ts:157-179 | A batch that a message joins carries its members' images in order, and a text that joins is its request |
| `WeixinAccounts.CloseFits` | extensions/weixin/src/state.ts:181-197 | A batch that is closed for sending carries its members' images and, as they have no text, the standard request for one picture or for several |
| `WeixinAccounts.FitsOwnOnly` | extensions/weixin/src/bridge.ts:272-316 | Every message that a gateway call mentions, that was part of a request given up, or that waits in the batch fits the schema, has type 1, comes from the signed-in user, and has no picture that cannot be fetched |
| `WeixinPass.PollEndsByDeadline` | extensions/weixin/src/bridge.ts:64-71 | While a batch collects the poll ends by its deadline, or after one millisecond when that is past; otherwise, and when the deadline is later, it lasts as long as the server says |
| `WeixinPass.AppendRefuses` | extensions/weixin/src/state.ts:162-164 | Between two messages, a batch refuses a member if and only if it belongs to another session |
| `WeixinPass.HandledRecords` | extensions/weixin/src/bridge.ts:266-384 | A message that was handled is recorded if and only if it is not lost; a lost one changes the context token at most |
| `WeixinPass.NoBatchStarts` | extensions/weixin/src/bridge.ts:318-336 | A message that is recorded or is not pictures alone leaves the batch as it is or sends it: only pictures alone start or change a batch that stays |
| `WeixinPass.OneBatchWaits` | extensions/weixin/src/bridge.ts:264-386 | As long as every earlier message is recorded or is not pictures alone, an undisturbed pass does not stop before a message, and the batch that waits there is the one that waited at first, or none |
| `WeixinPass.NonePassedOver` | extensions/weixin/src/bridge.ts:264-386 | An undisturbed pass leaves no pictures alone unrecorded before the place it comes to; a place within the list holds such pictures that are not recorded |
| `WeixinPass.TakenInOrPutOff` | extensions/weixin/src/bridge.ts:264-386 | With no unrecorded pictures before them, an undisturbed pass records pictures alone, or stops at them with the batch that waited when it began |
| `WeixinPass.SentForGood` | extensions/weixin/src/bridge.ts:254-262 | A batch that left before the list has its request in the log, or among those given up, at the end of the pass |
| `WeixinPass.GrowSound` | extensions/weixin/src/state.ts:199-244 | A message that joins the batch keeps history and books: it has one key, its batch fits its members, and the pass goes on |
| `WeixinPass.MissSound` | extensions/weixin/src/bridge.ts:338-353 | A text that is passed over may be entered as lost: it was never recorded |
| `WeixinPass.CursorSound` | extensions/weixin/src/bridge.ts:396 | The cursor may move past a list in which every message was recorded or lost |
| `WeixinBridge.Bridge.Run` | extensions/weixin/src/bridge.ts:556-587 | Any number of iterations, each failing or stopped at any step, with the bridge reconfigured in between. A message reaches the gateway under one request id only, with one prompt; a batch request carries exactly its members' images and text. Only messages that fit the schema, have type 1, come from the signed-in user and have no picture that cannot be fetched are ever part of a request (`OwnOnly`). Every message that was recorded was written by somebody else or is of another type, was answered by a notice, reached the gateway, had its request given up because images could not be decoded, or is a member of the pending batch. Every message behind the cursor was recorded or is a lost text, never both |
| `WeixinBridge.Bridge.ProcessUpdateBatch` | extensions/weixin/src/bridge.ts:229-397 | Before the list the waiting batch stays or its request is made; each message is then handled exactly as its state, request and notice require (`Handled`); a success and a moved cursor need all of them and no blocked picture; at the end exactly a due batch is sent; undisturbed, only a blocked picture stops the pass, which then fails and leaves all that came of the earlier messages, and of this one the context token (`PutOff`); only what the signed-in user wrote is part of a request (`OwnOnly`) |
| `WeixinBridge.Bridge.HandleAll` | extensions/weixin/src/bridge.ts:264-386 | The list is handled message by message, a message recorded at any moment stays recorded through the pass, and the state, log and notices at the end are those of the last moment, up to the context token when the pass stops undisturbed at a picture |
| `WeixinBridge.Bridge.HandleMessage` | extensions/weixin/src/bridge.ts:266-384 | One message: the state afterwards is exactly the one it leads to, the request that belongs to it was made once and no other, and a notice was given if it needs one; a blocked picture fails and leaves the batch and the processed ids alone; what does not fit the schema, has another type or comes from somebody else is recorded and nothing else happens |
| `WeixinBridge.Bridge.DispatchTogether` | extensions/weixin/src/bridge.ts:338-353 | A text that meets another session's batch returns successfully with the state unchanged and no request; otherwise it is recorded, and one request carries the batch with its pictures and text |
| `WeixinBridge.Bridge.PassOver` | extensions/weixin/src/bridge.ts:339-352 | The lost text is entered as lost and the pass goes on |
| `WeixinBridge.Bridge.CollectPictures` | extensions/weixin/src/bridge.ts:318-336 | Pictures without text enter the batch of their session, whose deadline is then 30 seconds away, or the pass fails with the state unchanged when another session's batch collects |
| `WeixinBridge.Bridge.DispatchPending` | extensions/weixin/src/bridge.ts:201-227 | The batch is dropped only after its request was made once or given up; a failure leaves it for the next pass |
| `WeixinBridge.Bridge.DispatchPrompt` | extensions/weixin/src/bridge.ts:116-199 | Success means that the gateway was called once with the request, or that its images could not be decoded and it was not called; a failure never calls it with anything else; the replies are entered under the request's session |
| `WeixinBridge.Bridge.Route` | extensions/weixin/src/bridge.ts:289-291 | A message goes to the default session or, when it refers to a reply, to that reply's session, if it is known |
| `WeixinBridge.Bridge.Reply` | extensions/weixin/src/routed-messenger.ts:22-45 | A reply is entered with the session it was sent for, and no entry is changed |
| `WeixinBridge.Bridge.SendAlone` | extensions/weixin/src/bridge.ts:355-383 | A text of its own is sent under the message's id, without images, and then recorded; a message without text is answered by a notice and recorded without a request |
| `WeixinBridge.Bridge.Settle` | extensions/weixin/src/bridge.ts:254-262 | A batch of another user, or one that was dispatching, is gone only when its request was made; another stays |
| `WeixinBridge.Bridge.Begin` | extensions/weixin/src/bridge.ts:237-262 | Before the list, the batch stays or its request is made; one that is due before an empty list is sent, one that may wait stays |
| `WeixinBridge.Bridge.SendDue` | extensions/weixin/src/bridge.ts:388-394 | After the list the request of the batch is made exactly if it is due; otherwise the batch stays and nothing is sent |
| `WeixinBridge.Bridge.Finish` | extensions/weixin/src/bridge.ts:388-396 | The due batch is sent, then the cursor is saved: a cursor that moved means that the batch was sent if it was due; history and books stay right if every message before the new cursor was dealt with |
| `WeixinBridge.Bridge.PollUpdates` | extensions/weixin/src/bridge.ts:572-578 | A poll that waits while a batch collects ends by that batch's deadline, or a millisecond after it was asked |
| `WeixinBridge.Bridge.Iteration` | extensions/weixin/src/bridge.ts:556-587 | Before the list is read the waiting batch stays or is sent, for certain at or after its deadline, and stays when it is not due; the poll in between ends by that deadline; an undisturbed iteration ends with the list handled or stopped at a picture, in exactly the state this leads to (`Undisturbed`) |
| `WeixinBridge.Bridge.StopsAtFirstPicture` | extensions/weixin/src/bridge.ts:247-396 | An undisturbed iteration deals with the whole list, moves the cursor to the new one and leaves no pictures alone unrecorded; or it leaves the cursor and stops, while a batch collects, at the first pictures alone that are not recorded |
| `WeixinBridge.Bridge.PictureIsTakenIn` | extensions/weixin/src/bridge.ts:247-396 | Progress: such pictures, the first of the redelivered list, are recorded and settled by one more undisturbed iteration, or the batch they wait for is unchanged, deadline included; an iteration that begins at or after the deadline records them, and the request of the old batch was made |
| `WeixinBridge.Bridge.PictureWaits` | extensions/weixin/src/bridge.ts:556-587 | Over any number of undisturbed iterations with growing lists and changing default sessions, pictures that stopped a pass wait for that one batch with that one deadline, and are recorded and settled as soon as an iteration began at or after it |
| `WeixinBridge.Bridge.TextIsLost` | extensions/weixin/src/bridge.ts:338-353 | A text that is lost: a picture is collected for one session, the default changes, and a plain text before the deadline leaves the cursor behind it while it is recorded nowhere and nothing was sent |
| `CanonicalJson.CanonicalIsUnambiguous` | extensions/weixin/src/message.ts:25-34 | Two JSON values print the same text if and only if they are equal up to the order of object keys, for every total order of keys |
| `CanonicalJson.CanonicalReads` | extensions/weixin/src/message.ts:25-34 | A JSON reader, written after RFC 8259 and not after the printer, gets from the text the value with the fields of every object in key order |
| `CanonicalJson.EmitReads` | extensions/weixin/src/message.ts:25-34 | The reader gets back any value that is printed, and leaves what follows it |
| `CanonicalJson.ReadsEscape` | extensions/weixin/src/message.ts:30 | Each character that is printed inside a literal, escaped or not, is read back as that character |
| `CanonicalJson.EmitUnique` | extensions/weixin/src/message.ts:25-34 | Printing is self-delimiting: equal texts with any continuations come from equal values and equal continuations |
| `CanonicalJson.QuoteUnique` | extensions/weixin/src/message.ts:30 | The same for a string literal of `JSON.stringify` |
| `CanonicalJson.SameIsNormal` | extensions/weixin/src/message.ts:28-29 | Equality up to key order is equality of the sorted values, at every depth |
| `CanonicalJson.SortSorts` | extensions/weixin/src/message.ts:29 | Sorting entries with distinct keys yields the same entries in strict key order |
| `CanonicalJson.CanonicalIsEmitNormal` | extensions/weixin/src/message.ts:25-34 | The printer that sorts as it goes prints what plain printing of the sorted value prints |
| `MessageIdentity.IdentityIsExact` | extensions/weixin/src/message.ts:121-135 | Two messages have one identity if and only if they agree on the id, else the client id, else the content up to key order |
| `MessageIdentity.BatchIdentityIsExact` | extensions/weixin/src/message.ts:137-138 | Any two lists of ids have one batch identity if and only if cutting every id at its NULs yields the same pieces in the same order; for ids without NUL, if and only if the lists are the same |
| `MessageIdentity.NulMergesIds` | extensions/weixin/src/message.ts:138 | Anywhere in a batch, two ids and the one id that joins them by a NUL give the same identity |
| `MessageIdentity.IdentityIsNoBatch` | extensions/weixin/src/message.ts:121-138 | No message identity is a batch identity, nor begins like one |
| `MessageIdentity.KeysAreExact` | extensions/weixin/src/message.ts:121-138 | The texts of two request ids, single or batch, of ids without NUL are equal if and only if the request ids are: what the bridge model takes a request id to be |
| `Presentation.ValidatePresentation` | protocols/companion-contracts/src/presentation.ts:72-103 | The stack walk accepts a document if and only if its node count, depth and total text length, defined recursively over the tree, are within the limits of 64 nodes, 8 levels and 16384 units of text; each error names a limit that is exceeded; it terminates |
| `Presentation.PushChildren` | protocols/companion-contracts/src/presentation.ts:89-91 | Pushing children keeps the sums over the stack and the depth condition |
| `Presentation.GroupDepth` | protocols/companion-contracts/src/presentation.ts:86-91 | A group is within the depth limit if and only if its children are, one level down |
| `WebSurfaceChannel.TraceIsLegal` | apps/pipee/src/browser/web-surface-channel-state.ts:18-43 | For every event stream, the messages of one session are a legal trace: `init` only when shut, `projection` only when open on that runtime with a larger revision, a close before the `init` of another runtime; the frame is open exactly when the channel state is initialized. What each event posts is fixed by the frame, the runtime before and the event (`News`): a larger revision a `projection`, no surface a close with `surface-unavailable`, another runtime a close with `runtime-replaced` and then an `init`, a shut frame an `init`, and else nothing |
| `WebSurfaceChannel.FrameAgrees` | apps/pipee/src/browser/web-surface-channel-state.ts:18-43 | After the events of hosts that keep revisions growing between removals, the frame shows the surface of the last event, or is shut when it has none |
| `WebSurfaceChannel.PostsAgree` | apps/pipee/src/browser/web-surface-channel.ts:225-250 | One event takes a frame that shows the previous event's surface to one that shows this event's |
| `WebSurfaceChannel.FailureShuts` | apps/pipee/src/browser/web-surface-channel.ts:257-263 | A stream that fails leaves the session shut |
| `WebSurfaceHost.Host.ViewAgreement` | packages/host-runtime/src/extension-capabilities.ts:139-181 | End to end: while the host is open, a page that follows its events from any one on shows the current revision and view of the live registration of that surface and candidate, and is shut when there is none, across releases and registrations that restart at revision 1 |
| `WebSurfaceHost.Host.AgreementAfterClosing` | packages/host-runtime/src/extension-capabilities.ts:239-251 | Open, closing or disposed, a page shows what was last published; it shows what the table of registrations says if and only if the published list does |
| `WebSurfaceHost.Host.StartClosing` | apps/pipee/src/server/extension-ui-runtime.ts:358-370 | Closing publishes the same surfaces once more or nothing, and keeps the invariant |
| `WebSurfaceHost.Host.ShutDown` | apps/pipee/src/server/extension-ui-runtime.ts:354-381 | Closing and `dispose` of an open host: every page, wherever it started to listen, keeps showing what the table of registrations said before; it is shut if and only if nothing was registered for its surface and candidate |
| `WebSurfaceHost.DisposeLeavesSurface` | packages/host-runtime/src/extension-capabilities.ts:239-251 | A registration that is never released: after closing and `dispose` no registration is left and the page still shows it |
| `WebSurfaceHost.FrameShowsLast` | apps/pipee/src/browser/web-surface-channel.ts:219-250 | A page that starts to listen anywhere in a published history ends up showing the last list's entry for its surface and candidate |
| `WebSurfaceHost.FindReplaced` | apps/pipee/src/server/extension-ui-runtime.ts:132-140 | Replacing an owner's entry is seen by a page that looks for that owner, and by no other |
| `WebSurfaceHost.HistoryReplaced` | apps/pipee/src/server/extension-ui-runtime.ts:132-140 | Removing an entry, or showing it at a larger revision, continues a history in which revisions only grow between removals |
| `WebSurfaceHost.Host.Register` | packages/host-runtime/src/extension-capabilities.ts:139-181 | Refused exactly for an owner that is not admitted or already registered, without a change; else a new current registration at revision 1 without a view, published once |
| `WebSurfaceHost.Host.Replace` | packages/host-runtime/src/extension-capabilities.ts:155-168 | A handle that is no longer current does nothing; a view that is not JSON throws before any change; else the next revision with that view is published |
| `WebSurfaceHost.Host.Release` | packages/host-runtime/src/extension-capabilities.ts:172-180 | Idempotent; takes the registration away, publishes the removal and aborts its action in flight and no other |
| `WebSurfaceHost.Host.CommitOther` | apps/pipee/src/server/extension-ui-runtime.ts:122-128 | Any other change of the UI projection publishes the same surfaces again and keeps the invariant |
| `WebSurfaceHost.Host.Begin` | packages/host-runtime/src/extension-capabilities.ts:200-215 | `closed` exactly when no live registration of that owner and candidate exists, `busy` exactly when its action is in flight, else a new action that is the only one in flight |
| `WebSurfaceHost.Host.Finish` | packages/host-runtime/src/extension-capabilities.ts:232-236 | An action's finaliser, run for any action at any time, never clears a newer one |
| `WebSurfaceHost.Host.Dispose` | packages/host-runtime/src/extension-capabilities.ts:239-251 | Every registration ends and exactly the actions in flight are aborted; nothing is published; the second call does nothing; while the UI runtime is open, agreement with the pages survives if and only if the list shows nothing |
| `WebSurfacePort.Port.OnEvent` | apps/pipee/src/browser/web-surface-channel.ts:212-254 | Each event makes the page's handler post exactly what is news to the frame (`News`); it keeps each session's state and posted messages equal to the channel function's over the whole stream, and leaves the other sessions alone |
| `WebSurfacePort.Port.OnFailure` | apps/pipee/src/browser/web-surface-channel.ts:257-263 | A failed stream posts one close with `stream-failed`, shuts its session for good and no other |
| `WebSurfacePort.Port.OpenMeansActive` | apps/pipee/src/browser/web-surface-channel.ts:141-143 | The page accepts actions for a session exactly while the frame has it open, and sends them to the runtime that the frame shows |
| `WebSurfacePort.Port.OnDispatch` | apps/pipee/src/browser/web-surface-channel.ts:140-166 | Forwarded if and only if the id is new and the session active; else answered at once with the right reason; each id is forwarded at most once, and every dispatch was answered once or is still with the host |
| `WebSurfacePort.Port.OnOutcome` | apps/pipee/src/browser/web-surface-channel.ts:169-180 | A forwarded request is answered once |
| `WebSurfacePort.Port.SessionShowsLast` | apps/pipee/src/browser/web-surface-channel.ts:203-256 | From a host's history through the page's handler to the frame: the session shows the last list's entry |
| `WebSurfaceClient.Client.Ask` | protocols/companion-contracts/src/web-surface-browser.ts:99-136 | Every call gets an id that no earlier call had, and is pending |
| `WebSurfaceClient.Client.OnMessage` | protocols/companion-contracts/src/web-surface-browser.ts:70-96 | A result settles exactly the pending call of its id and kind, once, with the answer it carries; `closed` rejects every pending action and answers false to every pending confirmation and host action; other messages settle nothing |
| `WebSurfaceClient.Client.Settle` | protocols/companion-contracts/src/web-surface-browser.ts:80-90 | A second answer, an unknown id or an answer of the wrong kind is ignored |
| `WebSurfaceClient.Client.ClosePending` | protocols/companion-contracts/src/web-surface-browser.ts:60-69 | Every call made before the channel closed has been settled exactly once: the pending actions as rejected with the reason `closed`, the pending confirmations and host actions as false |
| `WebSurfaceClient.Client.IdsAreDistinct` | protocols/companion-contracts/src/web-surface-browser.ts:58 | No two calls share an id, whatever the clock says |
| `RetentionSlot.Host.Acquire` | packages/host-runtime/src/extension-capabilities.ts:117-122 | The key is retained by the new handle; an earlier handle of that key no longer counts |
| `RetentionSlot.Host.Release` | packages/host-runtime/src/extension-capabilities.ts:124-128 | Releasing twice, or releasing a handle that a later one replaced, changes no retention |
| `RetentionSlot.Slot.Replace` | packages/extension-kit/src/index.ts:114-122 | The host retains the key exactly while the slot holds a handle; the same reason keeps the handle; every handle acquired was released once, but for the current one; a closed slot does nothing |
| `RetentionSlot.Slot.Close` | packages/extension-kit/src/index.ts:106-112 | A closed slot retains nothing and every handle it acquired was released exactly once |
| `RetentionOwner.Owner.ExactlyTheOldest` | extensions/weixin/src/runtime.ts:27-32 | Between operations, a session's host retains if and only if retention is on, the session is the oldest consumer and its slot is made and open |
| `RetentionOwner.Owner.AtMostOneRetains` | extensions/weixin/src/runtime.ts:27-32 | With distinct session ids at most one host retains |
| `RetentionOwner.Owner.Tell` | extensions/weixin/src/runtime.ts:29-31 | At each single callback, the hosts that retain, but for displaced sessions, are entered in the record, and are never two |
| `RetentionOwner.Owner.Acquire` | extensions/weixin/src/runtime.ts:45-54 | A runtime is created only when there is none; the consumer is listed last, or takes the place of one with its id, and all others keep theirs (`Entered`). The displaced one's host still retains if and only if before the call retention was on and the oldest consumer had that id and its slot was made, open and supported |
| `RetentionOwner.Owner.Start` | extensions/weixin/src/runtime.ts:45-54 | When the new session's slot opens as well, two hosts retain if and only if that same condition held before, provided nobody was displaced earlier |
| `RetentionOwner.TwoHostsRetain` | extensions/weixin/src/runtime.ts:48-49 | A run that ends with two retaining hosts: a session started under an id that is still listed |
| `RetentionOwner.Owner.SetRetained` | extensions/weixin/src/runtime.ts:55-60 | Retention is turned on or off for the oldest consumer, and for nobody else |
| `RetentionOwner.Owner.Release` | extensions/weixin/src/runtime.ts:61-75 | The consumer is told and delisted and the others keep their order (`Left`); after the oldest leaves, the second oldest is the oldest and is told; the runtime is disposed, once, exactly when nobody is left; an unknown id delists nobody |
| `RetentionOwner.Owner.CloseScope` | extensions/weixin/extensions/weixin.ts:491-516 | Closing a session's scope ends its retention and releases each of its handles once, wherever it stands in the list |
| `RetentionOwner.PutEnters` | extensions/weixin/src/runtime.ts:48-49 | Setting a new id appends it; setting one that is there replaces it in its place |
| `RetentionOwner.WithoutLeaves` | extensions/weixin/src/runtime.ts:63-65 | Deleting an id closes the gap and moves nobody else |
| `RetentionOwner.WithoutKeeps` | extensions/weixin/src/runtime.ts:63-65 | Deleting an id keeps the order of the others: the oldest stays oldest unless it was deleted |

## Left out

- React rendering, styles and icons of the diff view: the rows are the lines and their numbers; prefix and colour follow the kind of line.
- Bridge: the transport under the long poll, retry backoff, login, leases, the route store and status events; they rest on library concurrency or SQL that the model does not hold.
- Bridge: store operations by other fibers in the middle of a pass; the user's switches happen between iterations.
- WeixinBridge.Bridge.Run: does not fix the session of a message's gateway calls, because another default session may be chosen, or a reply may become known, between two deliveries; request id, prompt and images are fixed.
- Image download, decryption and typing notices: chosen success or failure without an effect on the store.
- `parseInboundMessage`: messages arrive as parsed parts; `splitTextReply` and the reply client ids are not modelled.
- The migration of version 2 of the state file, and encoding and decoding of the file.
- CanonicalJson.CanonicalIsUnambiguous: does not model `undefined`, functions or lone surrogates, which JSON text cannot carry, nor a `localeCompare` that calls two different keys equal.
- DirectoryReplacement.ReplaceDirectoryWithRollback: the aggregated error objects are one failure; what matters is which trees remain.
- Web surfaces: navigation, notices, clipboard and the browser companion of the page, which pass through without state; the reason text of a failed stream.
- WebSurfaceClient.Client.Ask: a call made after the channel closed stays pending for ever, as in the code.
- What an action's handler answers, and how its outcome is decoded: `Begin` and `Finish` bracket it.
- Live presentations and media views of the host: a name-to-value table without further rules.
- RetentionSlot.Slot.Replace: does not cover a host that is disposed while the slot is open, which clears the table underneath it.
- API schemas, server handlers, the session registry, build and smoke scripts, and the PHP themes: thin composition or input and output.
