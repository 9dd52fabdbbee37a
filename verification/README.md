# Passport card: verified models of the firmware and its companion

This project models the parts of the passport-card firmware (C, ESP32-C3) and of its Android companion (Java) whose
correctness is a matter of protocol and storage logic, and proves what they are for. `dafny verify dfyconfig.toml`
checks everything.

## What is modelled

* **Wallet snapshots.** `Pcw1`, `WalletCore`, `Crc32`: the package format, its encoder and its validator. `NorFlash`,
  `WalletBanks`, `WalletStore`: two flash banks, a commit marker, a saved bank number, and boot selection, over flash
  that may fail or lose power during any call. `SnapshotIsolation`: page reads interleaved with a transfer.
  `WalletTransfer`, `BleProtocol`, `WalletWorker`, `WalletSync`, `WalletSyncCompletes`: the device state machine, the
  companion's frames and status decisions, and both ends together over an in-order link. `WalletSession`: the three
  threads of the Bluetooth front end.
* **Legacy images.** `StockProtocol`, `StockTransferSession`, `StockBle`, `StockContent`, `LegacyDelivery`,
  `LegacyDeliveryCompletes`: framing, the stop-and-wait sender, session-tagged queues, NOR partitions with leases, and
  the whole path.
* **Screenshots.** `PassportCapture`, `StockScreenshot`: assembling a frame from partial flushes and sending it with
  retransmission.
* **Decoders.** `StockAvatar` (PNG row unfiltering and chunk-independent row assembly), `Rtttl` (ring tones and
  chunked playback).
* **Encodings and geometry.** `Bech32`, `SegwitAddress`, `Utf8`, `DisplayRounding`.
* **Reveal safety.** `RevealSafety`: the main loop's navigation and rendering against commits that land at any moment.

Code that mutates a record or a buffer is a class or a method with loops here, proved against functions on values;
threads are state machines whose steps are the source's critical sections. Flash, locks, clocks, queues, the radio
and foreign libraries appear as parameters or arbitrary choices that may fail at every call.

## Assumptions

* **Checksums.** A bank whose erase or write was cut short reads as before, as completed, or commits nothing
  (`WalletStore.CutShort`). Nothing else is assumed of the checksum; its incremental law is proved.
* **Counters.** Session and generation counters of the radio code do not wrap. The store's 32-bit revision is modelled
  with its wrap.
* **Radio.** A link that is encrypted, authenticated and bonded stays so, under one identity. The button calls come
  from one thread, as they do from `main/main.c`; with two callers the reset on a full queue could clear the owner
  under a newly paired session.
* **Queues.** `WalletSession` lets the worker take any item ever queued, late, out of order or twice.

## Where the code does not do what one might expect

* **In-doubt commits.** A marker write that reports failure may have reached flash: the store keeps serving the old
  snapshot while the next boot selects the new one. `Store.CommitGuarded` and `TrustedBoot` state this exactly.
* **Revision wrap.** Past revision 0xffffffff the next generation is 1, which is not newer; if the saved bank number is
  then lost, boot selects the older snapshot (`CommitSurvivesLostBankNumber`, `Store.CanAdvance`).
* **Unreadable banks.** A read failure in the bank of the newest snapshot makes a boot select the older one and save its
  number, so that it stays selected once the bank can be read again (`UnreadBankRevertsTo`, `OldSnapshotReturns`). A
  boot selects the right snapshot if and only if its bank can be read (`BootSelects`).
* **Screenshots at capacity 20.** `main/main.c` admits an ATT capacity of 20, at which a frame takes 76800 packets and
  the 16-bit count in END says 11264 (`NarrowCountWraps`); at constant capacity the count is true if and only if that
  is at least 21 (`CountTrueExactly`).
* **A Kelvin sign in an address.** `toLowerCase` maps U+212A to an ordinary k and `toUpperCase` leaves it, so in an
  upper-case address it can replace a K without being noticed; it is the only one-character change that can
  (`OneCharacterChanged`).
* **Time stamps of queued writes.** A write stamped within two seconds of the one before it, but queued after a poll
  whose clock was past them, finds its frame already given up (`EarlyStampLosesFrame` is such a run). Polls influence
  what is delivered exactly through such writes (`PunctualExactly`).
* **Control characters in a nickname.** The companion's text check passes 41 control characters, but quoting makes the
  command exceed the payload limit and encoding refuses it (`ControlNicknameRefused`); `CommandsFit` says exactly
  which nicknames can be sent.
* **Radii.** The circle tests multiply in signed 32-bit arithmetic. The span search stays inside it exactly up to a
  radius of 46339, the per-pixel test exactly up to 32767 (`RowSearchFits`, `PixelTestFits`). The equivalence of the two
  is proved for unbounded integers.

## Model

| member | source | states |
|---|---|---|
| `Crc32.Incremental` | main/wallet_core.c:15-26 | the checksum of two pieces, the second seeded with the first's, is the checksum of their concatenation |
| `Crc32.Compute` | main/wallet_core.c:15-26 | the loop over octets and bits computes the checksum function used in every other statement, which the screenshot path's own loop shares |
| `Crc32.BurstNoticed` | main/wallet_core.c:15-26 | any change confined to four neighbouring octets, whatever stands before and after them, changes the checksum |
| `Crc32.ShiftLinear` | main/wallet_core.c:22-24 | the bit loop is linear over exclusive-or |
| `Crc32.ShiftInjective` | main/wallet_core.c:22-24 | and loses nothing |
| `Crc32.Generator` | main/wallet_core.c:23 | the constant is the generator of IEEE 802.3 in reflected form, mixed in when a set digit falls out |
| `WalletCore.CountsPartition` | main/wallet_store.c:273-296 | accepted pages are counted once each: the five counts add up to the page count |
| `WalletCore.DamageRefused` | main/wallet_store.c:263-271 | an accepted package with any change confined to four neighbouring octets is refused under the same announced checksum, as a checksum error if the header is untouched |
| `Pcw1.Encode` | android/app/src/main/java/com/folotoy/passport/wallet/core/Pcw1.java:11-26 | the encoder refuses exactly the illegal page lists, and otherwise returns header, records and patched checksum as one package |
| `Pcw1.BodyRecord` | android/app/src/main/java/com/folotoy/passport/wallet/core/Pcw1.java:20-24 | the i-th record of an encoded package is the i-th page, at its computed offset |
| `Pcw1.EncoderAgreesWithValidator` | main/wallet_store.c:239-297 | every package the companion can encode passes the device's header parser and whole validation, with per-kind counts equal to those of the pages |
| `Pcw1.AcceptsExactly` | main/wallet_store.c:239-297 | the device accepts exactly the packages of 1 to 52 pages with one card, the first page, legal flags and opaque palettes, under exactly their checksum |
| `Pcw1.AcceptedIsPackage` | main/wallet_store.c:239-297 | what was accepted is octet for octet the package of the pages read from it |
| `WalletBanks.MarkerRoundTrip` | main/wallet_store.c:299-326 | an encoded commit marker decodes to itself in its own bank and in no other, and a marker of generation zero never decodes |
| `WalletBanks.BlankMarkerHoldsNothing` | main/wallet_store.c:328-344 | a bank with erased marker cells commits nothing, whatever its package cells hold |
| `WalletBanks.MarkerCommits` | main/wallet_store.c:510-511 | writing the marker over blank cells of a validated bank makes that bank commit exactly the validated package under that generation |
| `WalletBanks.SpareBankEmpty` | main/wallet_store.c:346-394 | while the spare bank commits nothing, every boot selects the present snapshot, wherever the saved bank number points and whether or not it can be read |
| `WalletBanks.CommitRecovers` | main/wallet_store.c:346-394 | a marked bank the saved number designates is selected by a boot that can read that number |
| `WalletBanks.CommitSurvivesLostBankNumber` | main/wallet_store.c:346-394 | when the saved number cannot be read, a committed bank still wins if and only if its generation is newer (or it is the lower bank on a tie), which fails exactly at the 32-bit wrap |
| `WalletStore.MarkerOutcome` | main/wallet_store.c:506-517 | whatever a marker write does, the next boot selects the old snapshot or the whole validated candidate; a reported success means the candidate |
| `WalletStore.Store.StreamCrc` | main/wallet_store.c:221-237 | the chunked read returns the checksum of the whole range, exactly if every read succeeded |
| `WalletStore.Store.ValidatePackage` | main/wallet_store.c:239-297 | the streaming validation returns the verdict defined on the whole package, exactly if every read succeeded |
| `WalletStore.Store.ValidateCommitted` | main/wallet_store.c:328-344 | what a bank commits is reported exactly if every read of it succeeded; a bank that cannot be read counts as empty |
| `WalletStore.Store.Init` | main/wallet_store.c:346-394 | boot keeps both banks as they are and selects exactly what the banks that could be read, and the saved number if it could be looked up, designate; only the number of the selected bank is ever saved |
| `WalletStore.BootSelects` | main/wallet_store.c:346-394 | a boot selects the snapshot every boot should select if and only if the bank of that snapshot can be read |
| `WalletStore.UnreadBankRevertsTo` | main/wallet_store.c:369-387 | when it cannot be read and the other bank holds a snapshot, that older one is selected, and it stays selected at later boots, because its number was saved |
| `WalletStore.OldSnapshotReturns` | main/wallet_store.c:346-394 | the input for it: any two accepted packages stored one after the other, and one boot at which the newer bank cannot be read |
| `WalletStore.Store.Begin` | main/wallet_store.c:396-424 | each result with its exact condition, the erase of the spare bank only, and the new staging; the next boot's selection is unchanged by an erase that fails or is cut short |
| `WalletStore.Store.Write` | main/wallet_store.c:426-448 | each of the four outcomes with its exact condition; a success appends to the staged octets, and no outcome changes what the next boot selects |
| `WalletStore.Store.CommitGuarded` | main/wallet_store.c:450-524 | each result with its exact condition; only a complete, validated staging, with both guard checks passed, becomes active; every failure before the marker leaves the old snapshot, and a marker write that reports failure leaves at most the whole new package in doubt |
| `WalletStore.Store.CandidateIsStaged` | main/wallet_store.c:460-475 | after writes that all succeeded the package up for commit is exactly the accepted octets, judged against the announced length and checksum |
| `WalletStore.Store.FindPage` | main/wallet_store.c:581-605 | the page loop finds the ordinal-th page of a kind exactly when there is one |
| `WalletStore.Store.ReadPage` | main/wallet_store.c:558-608 | invalid kind, uninitialised, stale, missing, found and failed, each with its condition (failed exactly if a read failed), and outputs untouched unless found |
| `WalletStore.Store.GetInfo` | main/wallet_store.c:544-556 | the information reported is the active snapshot's |
| `WalletStore.NthUnique` | main/wallet_store.c:581-605 | the ordinal-th page of a kind is unique, so a successful read determines its octets |
| `WalletStore.PowerCycle` | main/wallet_store.c:346-394 | after power loss at any point, boot selects what the readable banks designate and forgets any commit in doubt |
| `WalletStore.TrustedBoot` | main/wallet_store.c:346-394 | a boot that can read the bank of the snapshot to recover selects the one that was active or, only if a marker write had been started, that whole validated package |
| `WalletStore.Lifetime` | main/wallet_store.c:346-542 | any history of begins, writes, guarded commits, aborts, failures and power losses, recorded step by step with what each left |
| `WalletStore.CrashAtomicity` | main/wallet_store.c:346-542 | over any such history whose boots could read the bank to recover and whose commits had a newer generation: the next boot selects the active snapshot or the one commit in doubt; the active one is the first one or one that a guarded commit met complete and validated; once there is one there always is one |
| `SnapshotIsolation.HeadMoves` | main/wallet_store.c:581-596 | one metadata read of a scan keeps the count of matching pages, ends it or finds the page |
| `SnapshotIsolation.DisturbKeeps` | main/wallet_store.c:407-414 | whatever an unlocked flash call leaves in the other bank, a reader in its loop is not affected |
| `SnapshotIsolation.SpareApart` | main/wallet_store.c:407-421 | a staging, and whatever the worker is doing, is never on the active bank |
| `SnapshotIsolation.ReadsAreIsolated` | main/wallet_store.c:558-621 | from any boot on, over every interleaving with begin, write, validate, save, mark and publish: a finished read is the ordinal-th page of the kind in the snapshot active when the lock was taken, not-found only past its count, stale exactly for another revision, outputs untouched otherwise |
| `SnapshotIsolation.StoreBooted` | main/wallet_store.c:388-393 | a store without a staging is such a start |
| `WalletTransfer.Machine.OnInput` | main/wallet_transfer.c:48-149 | the field-by-field state machine is the transition function used in the end-to-end proof, on every message and state |
| `WalletTransfer.Machine.OnComplete` | main/wallet_transfer.c:151-185 | completion of a pending action, matched against its kind and length |
| `WalletTransfer.Machine.OnDisconnect` | main/wallet_transfer.c:187-206 | a disconnect abandons exactly the unfinished transfers |
| `WalletTransfer.Machine.OnTimeout` | main/wallet_transfer.c:208-230 | a timeout fails exactly the open transfers |
| `WalletTransfer.TimeoutReported` | main/wallet_transfer.c:208-230 | a timeout shows in the status as state 4 and error 9 with the counters kept; finished transfers are left alone |
| `WalletTransfer.DisconnectForgets` | main/wallet_transfer.c:187-206 | after a disconnect the status of an unfinished transfer is all zero |
| `WalletTransfer.RefusalsReported` | main/wallet_transfer.c:61-149 | for each message the condition of its acceptance, and for each refusal its error octet and whether a staging is dropped |
| `WalletTransfer.OutsidersRefused` | main/wallet_transfer.c:56-68 | an unauthorized message gets error 1 and never reaches the store but to drop a staging; a busy machine keeps the message |
| `BleProtocol.BuildFrames` | android/app/src/main/java/com/folotoy/passport/wallet/ble/BleProtocol.java:16-20 | frames are BEGIN, one DATA per cut and COMMIT; the cuts ascend from zero to the package length in full pieces |
| `BleProtocol.StatusRoundTrip` | main/wallet_transfer.c:238-252 | what the device encodes as status is what the companion parses |
| `BleProtocol.FramesOnTheWire` | android/app/src/main/java/com/folotoy/passport/wallet/ble/BleProtocol.java:16-20 | what stands in each frame: type, little-endian length and checksum, or offset and data |
| `BleProtocol.ErrorEnds` | android/app/src/main/java/com/folotoy/passport/wallet/ble/BleProtocol.java:24-55 | a reported error that is not the old one ends the transfer at the next look |
| `BleProtocol.BeginObservation.Observe` | android/app/src/main/java/com/folotoy/passport/wallet/ble/BleProtocol.java:41-59 | the stale-error filter: only an unchanged failed baseline is ignored, and only until the deadline, which alone marks the timeout as ambiguous |
| `WalletSync.AdvanceMeans` | android/app/src/main/java/com/folotoy/passport/wallet/ble/BleProtocol.java:24-36 | the companion moves past BEGIN only on a fresh transfer of its length, past DATA only on its own running total, and is done only on a committed state |
| `WalletSync.NextInv` | main/wallet_ble.c:542-594 | writes, status reads, worker steps, ticks and the end of the session each keep the device tracking the companion's frames |
| `WalletSync.SyncDelivers` | android/app/src/main/java/com/folotoy/passport/wallet/ble/WalletBleClient.java:80-121 | a companion that reports success finished a transfer whose BEGIN this device accepted, and the active snapshot is its package octet for octet and validated |
| `WalletSync.ReceivedTracksStaging` | main/wallet_transfer.c:151-185 | while a transfer of the session is open the received counter equals the octets staged, and they are a prefix of the package |
| `WalletSyncCompletes.DeliveryCompletes` | android/app/src/main/java/com/folotoy/passport/wallet/ble/WalletBleClient.java:80-121 | from a fresh session there is a run in which the companion reports success, for every package the device accepts |
| `WalletWorker.ExecuteTransfer` | main/wallet_ble.c:542-594 | what one message does to the real store and transfer machine: dropped, retried, aborted, or one store call and its completion, a lost session closing the staging; the outcome and the reported fault are exactly what the staging, the guard checks and the flash failures make them |
| `WalletWorker.HandlingIsSteps` | main/wallet_ble.c:542-594 | whatever that does is one take step or a take, a store and a completion step of the end-to-end model, the session possibly ending in between |
| `WalletSession.ConnectKeeps` | main/wallet_ble.c:989-1030 | the connect callback opens a session on a link of its own generation and keeps the session invariant |
| `WalletSession.DisconnectKeeps` | main/wallet_ble.c:1031-1050 | the disconnect callback ends the session it is about, and no other |
| `WalletSession.ControlKeeps` | main/wallet_ble.c:239-285 | serving the pending requests hits only the link each was meant for |
| `WalletSession.FinishEncryptionKeeps` | main/wallet_ble.c:842-858 | a session becomes secure only for the owner, on the link it was opened on, whatever happened while the owner was being saved |
| `WalletSession.AdoptOwnerKeeps` | main/wallet_ble.c:816-834 | a first owner is adopted only while its session and the pairing window are still current |
| `WalletSession.ResetQueuedKeeps` | main/wallet_ble.c:1311-1337 | the reset that runs on the button thread when the queue is full keeps the session invariant |
| `WalletSession.RunKeeps` | main/wallet_ble.c:239-300 | every interleaving of host callbacks, worker sections and button calls keeps the session invariant |
| `WalletSession.SecureMeansOwner` | main/wallet_ble.c:797-865 | in every reachable state a secure session is connected, under a live handle, on a link authenticated and bonded with the identity of the owner in memory and in flash |
| `WalletSession.EveryEffectIsRight` | main/wallet_ble.c:531-594 | a store action starts, and a commit passes its guard, only for an item of the current generation that came over the owner's secure link; a termination, cancellation or passkey reaches only the link it was asked for, and a passkey only after the holder accepted it there |
| `WalletSession.OwnerStarts` | main/wallet_ble.c:724-865 | the rules leave room: from start-up a first owner can pair and start a transfer |
| `WalletSession.EncryptionDecides` | main/wallet_ble.c:797-861 | with an owner on record, whatever the other threads do between the sections: the session becomes secure if and only if encryption succeeded, the link read is the owner's and fully secure, and it is still the current connection, in the pairing window or already secure |
| `WalletSession.UnsecuredIsTerminated` | main/wallet_ble.c:859-863 | a session that did not become secure is asked to end, on the link the report named |
| `WalletSession.TerminationIsServed` | main/wallet_ble.c:239-285 | a current termination request hits its link |
| `WalletSession.OwnerReturns` | main/wallet_ble.c:724-865 | from a start-up with an owner on record he reconnects over his bonded link and starts a transfer |
| `WalletSession.StrangerLeaves` | main/wallet_ble.c:797-863 | a stranger, or an owner whose link is not secure, is cut off |
| `WalletSession.PasskeyReleased` | main/wallet_ble.c:750-795 | any passkey shown to the returning owner and accepted with a button is released to his link |
| `WalletSession.OwnerForgotten` | main/wallet_ble.c:1311-1337 | a reset that meets no failure forgets the owner, in memory and in flash |
| `WalletSession.PressConfirmKeeps` | main/wallet_ble.c:1299-1309 | a passkey acceptance is recorded for the connection and passkey shown at that moment |
| `StockProtocol.Stream.FeedWrite` | main/stock_protocol.c:9-39 | the buffer loop is the parser function: at most one frame per write, what follows it dropped |
| `StockProtocol.FeedEncoded` | main/stock_protocol.c:9-39 | however an encoded frame is cut into writes, the parser holds what came until the frame is whole and then delivers it exactly once |
| `StockProtocol.BadFramesRefused` | main/stock_protocol.c:9-39 | a header of another version, or announcing more than 256 octets, is refused with its own error and nothing is held |
| `StockProtocol.FragmentsFlatten` | android/app/src/main/java/com/folotoy/passport/wallet/ble/StockProtocol.java:88-93 | the fragments of a frame, joined, are the frame |
| `StockProtocol.BuildFragments` | android/app/src/main/java/com/folotoy/passport/wallet/ble/StockProtocol.java:88-93 | the companion's loop builds those fragments for exactly the allowed sizes |
| `StockProtocol.BuildImage` | android/app/src/main/java/com/folotoy/passport/wallet/ble/StockProtocol.java:40-55 | an accepted image becomes mode, BEGIN, data pieces in order and END |
| `StockTransferSession.Session.Next` | android/app/src/main/java/com/folotoy/passport/wallet/ble/StockTransferSession.java:42-46 | the next write is the current fragment under a fresh token, and only when ready |
| `StockTransferSession.Session.OnWriteComplete` | android/app/src/main/java/com/folotoy/passport/wallet/ble/StockTransferSession.java:47-55 | only the current token advances, and a response kept from before is consumed exactly once |
| `StockTransferSession.Session.OnNotification` | android/app/src/main/java/com/folotoy/passport/wallet/ble/StockTransferSession.java:56-67 | global parser errors reject, other types are ignored, and an early answer to the last fragment is kept |
| `StockTransferSession.StepsInRange` | android/app/src/main/java/com/folotoy/passport/wallet/ble/StockTransferSession.java:42-83 | no event moves the command or fragment position out of range |
| `StockTransferSession.GivesUpOnTime` | android/app/src/main/java/com/folotoy/passport/wallet/ble/StockTransferSession.java:42-82 | an overdue sender gives up at any event, whatever it carries; before that only a failed completion of the awaited write makes it |
| `StockTransferSession.StartedAtLastMove` | android/app/src/main/java/com/folotoy/passport/wallet/ble/StockTransferSession.java:42-76 | over any history the deadline runs from the last write issued, fragment completed or response accepted |
| `StockTransferSession.UnknownExactly` | android/app/src/main/java/com/folotoy/passport/wallet/ble/StockTransferSession.java:42-83 | over any history the outcome is unknown if and only if some event came a whole timeout after that, reported the awaited write as failed, or cancelled a command under way |
| `StockContent.ShownIsComplete` | main/stock_content.c:81-90 | an image slot that shows its mark holds exactly the declared octets |
| `StockContent.HeaderCommits` | main/stock_content.c:81-90 | the header write, finished or cut short, shows the image only if every declared octet is in place; finished, the partition holds the mark, the length and the image at their offsets |
| `StockContent.Content.ImageBegin` | main/stock_content.c:54-67 | each result with its exact condition; erased cells for the declared length on success; a partition once erased counts as begun even if the call is then cancelled, and only an erase that failed makes it forgotten |
| `StockContent.Content.ImageData` | main/stock_content.c:68-80 | each result with its exact condition; each piece is programmed once into erased cells behind the last one |
| `StockContent.Content.ImageEnd` | main/stock_content.c:81-90 | each result with its exact condition; the mark is written only for a complete image, and success means it reads back |
| `StockContent.Content.ImageCommand` | main/stock_transfer.c:23-84 | BEGIN, DATA and END with every status and its exact condition, and what each does to the history of both partitions, on success, refusal, failure and cancellation |
| `StockContent.Content.HandleCurrent` | main/stock_content.c:115-150 | profile, image and unknown commands with their statuses; the history of each partition moves only as the command says, and borrowed partitions stay |
| `StockContent.Content.Handle` | main/stock_content.c:151-173 | a new session first abandons the old transfer; a guard that fails at any point cancels; the answer is a function of the state, the command and what failed |
| `StockContent.Content.Disconnect` | main/stock_content.c:179-185 | a disconnect abandons the transfer and keeps every partition as it is |
| `StockContent.Content.Acquire` | main/stock_content.c:186-206 | a lease is given exactly for a whole stored image that can be read and is not being received, with exactly its octets |
| `StockContent.Content.Release` | main/stock_content.c:207-213 | releasing gives back one lease |
| `StockContent.Run` | main/stock_content.c:115-213 | any run of commands, disconnects, loans and returns, recorded with what each was answered and left |
| `StockContent.ShownWasSent` | main/stock_content.c:54-90 | over any run, once a BEGIN has erased a partition and until something tries to erase it again, it shows an image only if an END came, and then it holds in order the octets of all data commands answered with success in between, as many as declared |
| `StockContent.LentStays` | main/stock_content.c:186-213 | over any run, while an image is on loan its partition keeps reading back the very octets that were lent |
| `LegacyDelivery.HandleFrame` | main/stock_content.c:115-150 | the device's handler, on each command of an image, moves the stored prefix forward or refuses |
| `LegacyDelivery.DeviceProgress` | main/stock_transfer.c:23-84 | accepted commands in order take the partition from erased, through each prefix, to the complete image |
| `LegacyDelivery.NextInv` | android/app/src/main/java/com/folotoy/passport/wallet/ble/StockTransferSession.java:42-83 | sends, deliveries, completions, notifications, idle resets and clocks keep the two ends in step |
| `LegacyDelivery.ImageDelivered` | android/app/src/main/java/com/folotoy/passport/wallet/ble/StockTransferSession.java:42-76 | a companion that reaches transport-complete has its mode's partition reading back the mark, the length and exactly the image |
| `LegacyDeliveryCompletes.DeliveryCompletes` | android/app/src/main/java/com/folotoy/passport/wallet/ble/StockTransferSession.java:42-76 | for every image there is a run in which the companion reaches transport-complete and the device shows it |
| `StockBle.Ring.Push` | main/stock_ble.c:239-241 | a ring slot computed modulo the length appends to the queue's contents |
| `StockBle.Ring.Pop` | main/stock_ble.c:362-367 | the oldest entry leaves first |
| `StockBle.WriteKeeps` | main/stock_ble.c:194-245 | accepting, overflowing, oversize and foreign writes keep the per-session history invariant |
| `StockBle.StepKeeps` | main/stock_ble.c:140-392 | every critical section of the host task and the polling worker keeps it |
| `StockBle.PerSessionDelivery` | main/stock_ble.c:339-392 | for every session, what was dispatched and reported is, from the first item on, what its accepted writes parse to; nothing of the current session is lost; a notification goes out only on the connection, session and subscription it was queued for |
| `StockBle.OverIsOver` | main/stock_ble.c:52-58 | after an overflow, an oversize write or a reconnect no frame accepted before is dispatched, and nothing more is accepted into that session |
| `StockBle.RefusalBlocks` | main/stock_ble.c:194-245 | an oversize or overflowing write ends the session, drops what was queued both ways, and every later write is refused until the worker has looked |
| `StockBle.RefusalReported` | main/stock_ble.c:345-358 | the refusal's status is the first thing reported in the new session, and only then are writes accepted again |
| `StockBle.RefusalCodes` | main/stock_ble.c:194-245 | which write is refused, and with what code |
| `StockBle.TwoSeconds` | main/stock_ble.c:372-383 | a frame in two writes is delivered if they are less than two seconds apart; otherwise the first piece is reported abandoned and the second parsed alone |
| `StockBle.PollGivesUp` | main/stock_ble.c:384-392 | the end of a poll gives a partial frame up after the same two seconds, and not before |
| `StockBle.FramesInOrder` | main/stock_ble.c:366-383 | wherever the polls fall, the dispatched frames are those of the writes parsed one by one with the idle rule between writes, provided no write is early: stamped less than two seconds after the one before it, yet met after a poll gave that one's partial frame up |
| `StockBle.PunctualExactly` | main/stock_ble.c:366-387 | after a history without early writes, the next write is parsed to the same frames whatever it holds if and only if it is not early |
| `StockBle.EarlyStampLosesFrame` | main/stock_ble.c:378-387 | a run from start-up, in one session, whose only frame is lost to an early write |
| `StockScreenshot.Sender.OnCommand` | main/stock_screenshot_session.c:6-36 | start, cancel and acknowledgement messages, each guard and each reply |
| `StockScreenshot.Sender.OnCaptured` | main/stock_screenshot_session.c:37-42 | a captured frame of the exact size starts the transfer, anything else does not |
| `StockScreenshot.Sender.NextPacket` | main/stock_screenshot_session.c:43-64 | the packet for the current phase, or the last one again, or nothing |
| `StockScreenshot.PacketSays` | main/stock_screenshot.c:18-67 | in any run, what a receiver reads from the packet that goes out: BEGIN the size of the frame, DATA the frame's octets at their offset, END the count and the frame's checksum, each with its session and sequence number |
| `StockScreenshot.Sender.OnSent` | main/stock_screenshot_session.c:65-70 | a packet handed to the radio starts its deadline and waits for its acknowledgement |
| `StockScreenshot.Sender.Poll` | main/stock_screenshot_session.c:71-79 | capture timeout, retransmission and giving up after four sends |
| `StockScreenshot.RetransmitsOnTime` | main/stock_screenshot_session.c:43-79 | an unacknowledged packet goes out again exactly from three seconds on, until it was sent four times; three seconds later the transfer fails |
| `StockScreenshot.CaptureTimesOut` | main/stock_screenshot_session.c:71-79 | a capture that was started fails exactly from thirty seconds on |
| `StockScreenshot.RunningIsKept` | main/stock_screenshot_session.c:9-36 | a running transfer refuses a second start and ends at a cancel for its session only |
| `StockScreenshot.CompleteReleases` | main/stock_screenshot_session.c:20-36 | completion answers both sides, and the frame can be released for five minutes |
| `StockScreenshot.FrameDelivered` | main/stock_screenshot_session.c:6-79 | a completed capture has had its DATA payloads acknowledged in order with no gap or overlap and they are the frame; END reads as its session, the count modulo 65536, 153600 and the frame's checksum, and from capacity 21 up the count is the true one |
| `StockScreenshot.FrameCompletes` | main/stock_screenshot_session.c:6-79 | every frame has a run that completes, at every capacity from 19 up |
| `StockScreenshot.AtMostFourSends` | main/stock_screenshot_session.c:65-79 | no packet is sent more than four times |
| `StockScreenshot.RetransmissionIdentical` | main/stock_screenshot_session.c:43-64 | a retransmission is the same octets |
| `StockScreenshot.OnlyAwaitedAckActs` | main/stock_screenshot_session.c:20-36 | an acknowledgement that is stale, repeated or for another capture changes nothing |
| `StockScreenshot.NarrowCountWraps` | main/main.c:110 | every run whose data packets are all built below capacity 21 and that reaches END or completion, whatever was lost or repeated on the way, took 76800 of them, and the count read from END is 11264 |
| `StockScreenshot.CountTrueExactly` | main/main.c:110 | at a constant capacity the count read from the END of a completed transfer is the true one if and only if the capacity is at least 21 |
| `StockScreenshot.NarrowRunExists` | main/main.c:110 | such a run exists at capacity 20, which the device admits |
| `StockAvatar.UnfilterInvertsFilter` | main/stock_avatar.c:113-124 | unfiltering what a filter of section 6 of RFC 2083 produced restores the row, for any length and one to four channels |
| `StockAvatar.FilterInvertsUnfilter` | main/stock_avatar.c:113-124 | and filtering what was unfiltered gives the raw octets back |
| `StockAvatar.NoneRestores` | main/stock_avatar.c:113-124 | without a filter the row is the raw octets |
| `StockAvatar.SubRestores` | main/stock_avatar.c:119 | Sub: each octet is the sum of the raw octets at its place and every channels-th before it |
| `StockAvatar.UpRestores` | main/stock_avatar.c:120 | Up: raw plus the octet above |
| `StockAvatar.AverageRestores` | main/stock_avatar.c:121 | Average: raw plus half the sum of left and above, rounded down |
| `StockAvatar.PaethRestores` | main/stock_avatar.c:108-122 | Paeth: raw plus whichever of left, above and corner is nearest to left + above - corner, ties in that order |
| `StockAvatar.RowOfBlock` | main/stock_avatar.c:131-150 | row k of a stream is its block k, unfiltered against row k - 1 |
| `StockAvatar.BgraOctets` | main/stock_avatar.c:131-150 | the four octets of each pixel, from grey, colour or colour with alpha |
| `StockAvatar.Unfilter` | main/stock_avatar.c:113-124 | the in-place loop computes the restored row and refuses exactly the unknown filters |
| `StockAvatar.FullBlock` | main/stock_avatar.c:131-150 | a stream completed to a whole block yields exactly one more row |
| `StockAvatar.RowDecoder.Deliver` | main/stock_avatar.c:131-150 | a piece of inflated output is taken exactly if the stream so far is not too long, has no filter above 4 and the sink takes its rows; what the sink got is always a prefix of the image's rows, and all completed rows on success |
| `StockAvatar.DecodeRows` | main/stock_avatar.c:151-189 | however inflate splits its output, success is reported exactly for a stream that ended, has the image's length and known filters and is taken by the sink; the sink got all the image's rows then, and the first of them otherwise, each unfiltered against the previous one |
| `PassportCapture.BitSet` | main/passport_capture.c:45-49 | setting one coverage bit changes that bit only |
| `PassportCapture.Stage.Put` | main/passport_capture.c:45-50 | the first pixel for a place is kept, later ones are ignored, and covered counts the set bits |
| `PassportCapture.Stage.PutFlush` | main/passport_capture.c:39-51 | the loops merge exactly the part of a flush inside the strip |
| `PassportCapture.Capture.OnFlush` | main/passport_capture.c:30-54 | a flush acts only while a strip is being collected, and completes it exactly when every pixel is covered |
| `PassportCapture.Capture.ProgramStrip` | main/passport_capture.c:110-113 | flushes arriving while the strip is being programmed change nothing in the staging buffer |
| `PassportCapture.Capture.Poll` | main/passport_capture.c:103-130 | timeouts, strip by strip progress, re-arming with nothing recorded, and the final ready or error state |
| `PassportCapture.StripTimesOut` | main/passport_capture.c:103-109 | a poll that finds pixels missing fails the capture exactly from the deadline on |
| `PassportCapture.DeadlinesRun` | main/passport_capture.c:55-66 | the deadline is three seconds after arming, by whichever clock is later |
| `PassportCapture.ShownNext` | main/passport_capture.c:110-114 | programming a complete strip into erased cells shows it and leaves the rest erased and the earlier strips as they were |
| `PassportCapture.Capture.Pixels` | main/passport_capture.c:131-135 | a ready capture shows, strip by strip, the first of the flushes recorded for the strip |
| `PassportCapture.Run` | main/passport_capture.c:30-135 | over any run of starts, flushes, polls and releases: the capture is in the state the history alone determines, and when ready every pixel is the first one flushed for its place since its strip was armed |
| `Bech32.StepLinear` | android/app/src/main/java/com/folotoy/passport/wallet/core/AddressValidator.java:39 | the checksum step is linear over exclusive-or, in state and symbol together |
| `Bech32.StepInjective` | android/app/src/main/java/com/folotoy/passport/wallet/core/AddressValidator.java:39 | on 30-bit states the step loses nothing |
| `Bech32.Step` | android/app/src/main/java/com/folotoy/passport/wallet/core/AddressValidator.java:39 | the loop over the five generators is that step |
| `Bech32.OneSymbolChanges` | android/app/src/main/java/com/folotoy/passport/wallet/core/AddressValidator.java:33 | changing one symbol changes the checksum, at any length |
| `Bech32.ChecksumExists` | android/app/src/main/java/com/folotoy/passport/wallet/core/AddressValidator.java:33 | for any data and constant there are six symbols that complete the checksum |
| `SegwitAddress.RegroupAccepts` | android/app/src/main/java/com/folotoy/passport/wallet/core/AddressValidator.java:35-36 | the five-to-eight-bit check accepts exactly the symbol sequences that spell some octet program with fewer than five zero bits left over |
| `SegwitAddress.ProgramUnique` | android/app/src/main/java/com/folotoy/passport/wallet/core/AddressValidator.java:35-36 | and that program is unique |
| `SegwitAddress.Regroup` | android/app/src/main/java/com/folotoy/passport/wallet/core/AddressValidator.java:35-36 | the 32-bit accumulator loop decides just that and counts the octets |
| `SegwitAddress.ValidSegwit` | android/app/src/main/java/com/folotoy/passport/wallet/core/AddressValidator.java:30-38 | the whole check, step by step, is the predicate the theorem below is about |
| `SegwitAddress.OneCharacterChanged` | android/app/src/main/java/com/folotoy/passport/wallet/core/AddressValidator.java:30-38 | changing one character other than the version of an accepted address gets it refused, except exactly for the exchange of a capital K and the Kelvin sign in an upper-case address |
| `SegwitAddress.EveryProgramAccepted` | android/app/src/main/java/com/folotoy/passport/wallet/core/AddressValidator.java:30-38 | every version up to 16 and every program of a length it allows has an accepted address that spells it |
| `SegwitAddress.PublishedZero` | android/app/src/main/java/com/folotoy/passport/wallet/core/AddressValidator.java:33-34 | bc1qxy2kgdygjrsqtzq2n0yrf2493p83kkfjhx0wlh is accepted, which fixes the constant of version 0 |
| `SegwitAddress.PublishedSixteen` | android/app/src/main/java/com/folotoy/passport/wallet/core/AddressValidator.java:33-34 | bc1sw50qgdz25j of BIP 350 is accepted, which fixes the constant of the later versions |
| `Utf8.WidthOf` | main/stock_profile_json.c:19-32 | the lead octet and continuation checks give the width function |
| `Utf8.DecodeEncodes` | main/stock_profile_json.c:19-32 | what has a width is the encoding of exactly one code point |
| `Utf8.EncodedWidth` | main/stock_profile_json.c:19-32 | and every code point's encoding has its own length as width, whatever follows |
| `Utf8.ValidUtf8` | main/stock_profile_json.c:34-42 | the loop decides validity |
| `Utf8.ValidExactly` | main/stock_profile_json.c:34-42 | valid means: the encoding, as section 4 of RFC 3629 defines it, of some code points other than NUL |
| `Utf8.CopyString` | main/stock_profile_json.c:68-80 | the field gets the kept prefix and a NUL; every octet after that stays as it was |
| `Utf8.KeptIsLongest` | main/stock_profile_json.c:68-80 | the kept prefix is the longest whole-code-point prefix within both limits |
| `Utf8.ValidateText` | android/app/src/main/java/com/folotoy/passport/wallet/ble/StockProtocol.java:60-71 | the companion's scan accepts exactly paired, NUL-free text within its limits |
| `Utf8.StoredUncut` | android/app/src/main/java/com/folotoy/passport/wallet/ble/StockProtocol.java:31-35 | well-formed text passes the companion's limits if and only if the device stores it uncut |
| `Utf8.NicknameStoredUncut` | main/stock_profile_json.c:139-145 | a nickname that passes is stored uncut |
| `Utf8.IntroStoredUncut` | main/stock_profile_json.c:139-145 | an introduction that passes is stored uncut |
| `Utf8.CommandsFit` | android/app/src/main/java/com/folotoy/passport/wallet/ble/StockProtocol.java:56-59 | a nickname's command fits a frame if and only if its octets, plus five for each control character and one for each quote and backslash, are at most 241; an introduction that passes always fits |
| `Utf8.QuotedSize` | android/app/src/main/java/com/folotoy/passport/wallet/ble/StockProtocol.java:73-86 | quoting adds five octets for each control character and one for each quote and backslash, and nothing else |
| `Utf8.FewControlsFit` | android/app/src/main/java/com/folotoy/passport/wallet/ble/StockProtocol.java:31-35 | hence every nickname with at most 36 control characters that passes can be sent |
| `Utf8.ControlNicknameRefused` | android/app/src/main/java/com/folotoy/passport/wallet/ble/StockProtocol.java:82-83 | a nickname of 41 control characters passes the text check, yet its command is refused |
| `DisplayRounding.FindInset` | components/bsp/src/bsp_display_rounding.c:27-31 | the incremental search finds the largest distance inside the circle |
| `DisplayRounding.RowSpan` | components/bsp/src/bsp_display_rounding.c:10-40 | for all sizes, radii and rows, a pixel is in the span exactly when the per-pixel circle test says it is visible; no span means none is |
| `DisplayRounding.CornersCut` | components/bsp/src/bsp_display_rounding.c:36-64 | a pixel is outside exactly if it lies in one of four corner squares and farther than the clamped radius from its inner corner |
| `DisplayRounding.RowSearchFits` | components/bsp/src/bsp_display_rounding.c:28-31 | the sums the span search compares all fit signed 32 bits if and only if the radius is at most 46339 |
| `DisplayRounding.PixelTestFits` | components/bsp/src/bsp_display_rounding.c:44-64 | the sums the per-pixel test compares all fit signed 32 bits, on every pixel, if and only if the clamped radius is at most 32767 |
| `DisplayRounding.MaskFlush` | components/bsp/src/bsp_display_lvgl.c:18-54 | of any flushed area exactly the outside pixels turn black |
| `RevealSafety.Nav.Press` | main/passport_nav.c:8-44 | the key handler on every screen, as the function the run theorem is about |
| `RevealSafety.KeysWalk` | main/passport_nav.c:8-44 | Up and Down undo each other on every screen and wrap around; the long press leads back and conceals; OK enters |
| `RevealSafety.Loop.Adopt` | main/main.c:321-324 | a snapshot of another revision starts at its first page, concealed |
| `RevealSafety.Loop.Receive` | main/main.c:191-241 | a complete full-screen image takes the screen over and conceals the pages; anything else only asks for a frame |
| `RevealSafety.Loop.HandleInput` | main/main.c:329-351 | which input wakes the screen, answers a prompt, opens one or reaches navigation |
| `RevealSafety.Loop.Tick` | main/main.c:352-356 | thirty idle seconds conceal the page and dim, ninety turn the screen dark |
| `RevealSafety.Loop.ReadPage` | main/main.c:380-394 | a page is used exactly if the store still has the adopted revision and the page is there; a commit in between makes the read stale |
| `RevealSafety.Loop.Frame` | main/main.c:357-413 | a stale read clears the screen and conceals; otherwise, with every lock, the frame is drawn, and screenshots are allowed only when it shows neither a page nor a prompt |
| `RevealSafety.Loop.Iterate` | main/main.c:301-413 | one pass of the loop, with any outcome of its locks, timers, input and calls, takes the view to its successor |
| `RevealSafety.Run` | main/main.c:301-413 | the loop over any passes is in the view they determine |
| `RevealSafety.StaysRevealed` | main/main.c:301-356 | after a pass pages are in the clear only if they were before it for the same revision or a click of OK on a concealed page reached navigation in it |
| `RevealSafety.PrivateOnlyRevealed` | main/main.c:301-413 | over whole runs, whatever commits land at any moment: a private page is drawn in the clear only if it is of the revision the store has at that read, OK was clicked when that revision was the adopted one, and the pages have been in the clear for that revision after every pass since |
| `RevealSafety.RevealShows` | main/main.c:348-413 | conversely, such a click draws the page under the cursor in the same pass, given the locks |
| `RevealSafety.DrawsExactly` | main/passport_ui.c:96-176 | what a drawn frame shows: the prompt that is due, the page read if it is public or revealed, or no page |
| `RevealSafety.PublicPageShows` | main/main.c:369-412 | a public page needs no reveal |
| `RevealSafety.IdleConceals` | main/main.c:352-357 | idle passes conceal the page and withdraw a question even when nothing can be drawn, and later nothing is drawn |
| `RevealSafety.WakingOnlyWakes` | main/main.c:329-340 | the input that wakes the screen, and any while a prompt is up, never reaches the pages |
| `RevealSafety.PrivateOnScreen` | main/main.c:301-413 | a private page on the screen after any run was drawn by some pass under those conditions and has been there since |
| `RevealSafety.CaptureSeesNoSecret` | main/main.c:97-103 | a screenshot that may start sees neither a wallet page nor a passkey for as long as it freezes the loop |
| `Rtttl.ReadNumber` | main/stock_rtttl.c:6-18 | the overflow guard accepts exactly the digit runs of value at most 65535 |
| `Rtttl.Init` | main/stock_rtttl.c:19-45 | the loops over title and defaults are the header reader characterised next |
| `Rtttl.HeaderIsRead` | main/stock_rtttl.c:19-45 | a title, a colon and default assignments are read as length 4, octave 6 and 63 beats unless assigned otherwise, the last assignment of each letter counting; an unknown letter or a value out of range refuses the score |
| `Rtttl.Next` | main/stock_rtttl.c:46-100 | one note as the device parses it |
| `Rtttl.NextAt` | main/stock_rtttl.c:46-100 | a note that sounds advances the cursor, stays within ten minutes, and has a length and a frequency of zero or 16 to 7904 |
| `Rtttl.PitchRange` | main/stock_rtttl.c:88-95 | every octave shift of the table stays between 16 and 7904 |
| `Rtttl.LettersSound` | main/stock_rtttl.c:57-68 | the letters a to g in either case sound their concert pitches, p is silent, nothing else is a note |
| `Rtttl.OctavesDouble` | main/stock_rtttl.c:88-95 | each octave doubles the one below from the fourth up, and halves, rounded down, below it |
| `Rtttl.BeatLasts` | main/stock_rtttl.c:43-45 | a quarter note lasts one beat to the millisecond below, and a dot adds half |
| `Rtttl.Validate` | main/stock_rtttl.c:101-113 | validation accepts exactly the scores whose every note parses, and reports their total |
| `Rtttl.ScoreBounds` | main/stock_rtttl.c:101-113 | an accepted score has between one note and one per octet, at most 600000 ms, and playable notes only |
| `Rtttl.SpelledIsRead` | main/stock_rtttl.c:46-100 | every note written as optional length, letter, sharp, dot and octave is read as what it stands for, and refused only when it would last no time, overrun ten minutes or leave the eighth octave |
| `Rtttl.SamplesSplit` | main/stock_rtttl.c:114-124 | rendering in pieces that carry the phase is rendering in one |
| `Rtttl.SampleAt` | main/stock_rtttl.c:114-124 | each sample in closed form: the sign of half the phase after that many steps of the frequency's share of the sample rate |
| `Rtttl.Pcm` | main/stock_rtttl.c:114-124 | the sample loop computes that rendering and the phase to continue with |
| `Rtttl.PlayNote` | main/stock_music.c:56-72 | 256-sample chunks, each at the phase the last ended with, concatenate to the note; it stops exactly at the first chunk that meets a newer score or is not written, having played the chunks before it |
| `Rtttl.Play` | main/stock_music.c:36-79 | with the codec awake, the worker's second parse plays the validated notes in order up to exactly the first chunk that meets a newer score or a failed write, says which, and finishes if and only if there is none; without it, and only then or for an unreadable header, it stays silent |
| `Rtttl.HeardWithin` | main/stock_music.c:51-72 | what is heard up to a chunk inside a note is the notes before it and so much of it |
| `Rtttl.HeardStarts` | main/stock_music.c:51-72 | what is heard is the start of the whole score's rendering, and all of it once every chunk is played |

## Left out

- SegwitAddress: Unicode case mapping other than ASCII letters and the Kelvin sign; no other character maps into the alphabet, so such an address is refused here and there alike.
- StockBle.Ring.Push: the state machine of the transport uses sequences for its queues; the ring class shows that the array form behaves as one, and is not threaded through the interleaving model.
- WalletSession.EveryEffectIsRight: termination requests the host issues directly for a link it has just refused are not in the log, since they name that link itself.
- PassportCapture.Run: a flush is one step, as it runs to its end on the display task before the strip can be seen as complete.
- LVGL, fonts, page drawing and Android activities: user interface over libraries that are not part of this model; only the reveal condition of the page screen is.
- NimBLE, FreeRTOS, esp_partition, NVS and Android GATT internals: replaced by steps, arrays and arbitrary outcomes.
- Advertising, the pairing window's timer and last-activity clock in `main/wallet_ble.c`: liveness and timing, not session safety.
- tinfl, cJSON, ZXing, bitcoinj and BouncyCastle: inflate output and parsed JSON are arbitrary inputs.
- `decodeBase58` and the double-hash check of legacy addresses: they rest on an arbitrary-precision and a hash library.
- The avatar archive index, PNG chunk walking and the avatar lease of `main/stock_avatar.c`: table scans beside the row decoder.
- The audio transfer and score persistence of `main/stock_music.c`: the receiver is the one proved for images, with another sink.
- Profile migration, identity storage, JPEG dimensions, portfolio valuation and network refresh: their properties would only be table copies.
- Timing of the radio, and 64-bit clock wrap.
