# A verified model of drachtio's state machines

drachtio is a SIP server: a SIP stack on one side, applications attached over TCP on the other. This project models the
logic between the two and proves what it keeps on every run. Opaque handles of the stack (irq, orq, leg, transport) are
identifiers with a record of what was destroyed; network, applications and timers are events in any order; each handler is
one step. Classes stand for the objects that the server changes in place, and every method of theirs is proved equal to a
function on values; lemmas about those functions and about whole runs carry the results.

| files | what they model |
|---|---|
| `SipDialog`, `DialogSpec`, `DialogHandlers`, `DialogController` | dialogs, invites in progress, the irq table, timers G and H |
| `DialogInvariant`, `DialogRuns`, `DialogHistory`, `DialogTheorems` | what every handler keeps, and what that means on every run |
| `DialogEffects`, `DialogIntervals` | what each event starts, stops, ends and leaves |
| `TimerQueue`, `TimerRuns` | the hand-written sorted linked list and its one alarm |
| `Framing`, `FramingProofs`, `FramingClient` | length-prefixed messages over a bounded ring buffer |
| `ProxyTransaction`, `ProxyTimers`, `ProxyFailures` | one branch of a forked request and its eight timers |
| `ProxySpec`, `ProxyRuns`, `ProxyTheorems`, `ProxyBest`, `ProxyEffects`, `ProxySort`, `ProxyWitness`, `ProxyCore` | the forking proxy: search, cancellation, best response |
| `ReliableProvisional` | RSeq rewriting and PRACK |
| `PendingRequest` | requests that wait for an application |
| `RoundRobin` | which application gets a request |
| `TimerD` | repeating an ACK for a repeated 200 OK |
| `OutgoingRequests` | who holds and who destroys each outgoing transaction |
| `Liveness` | closing a connection that only times out |
| `Schedules` | how often requests and answers are repeated |

`dafny verify dfyconfig.toml` checks everything.

## How the code is read

Assertions are taken as compiled out, as the repository's own build does; each is proved to hold or its failure is stated.

Results that are not what one would expect of the code, each a lemma with its exact condition or its input:

- A timer whose deadline equals that of the last entry is never linked (`ScanFallsOff`, `NothingLost`, `EqualDeadlineIsLost`),
  although its handle is handed out; so the second of two requests in one instant has no timer (`SameInstantHasNoTimer`). Every
  start of a timer here may be lost: an entry that is queued implies its handle, a handle implies its entry exactly if that was
  not lost, and removing a lost handle changes nothing (`HandleExactlyWhenQueued`, `TimersNeverSurprise`, `StopOfLost`).
- One wake-up of the timer queue detaches one entry, although the loop is written for all (`DetachExpired`, `DrainsOnePerWake`).
- An irq can be destroyed twice: a request of an early dialog that no client takes is made a pending one and its irq destroyed,
  and `nta_incoming_find` may give that irq to the answer (`DestroyedAtMostOnce`, `PlainAnswerDestroysAgain`).
- A message of more than 4037 bytes can lose a byte in the ring buffer (`LongerIsOverwritten`), one of more than 12228 bytes
  never arrives (`LongestNeverArrives`).
- A 200 OK repeated after timer D, which is shorter than the far end's repetitions, adds its INVITE again (`AddedAgain`).
- Any response to a request in a dialog ends it, also a provisional one (`AnyResponseIsTheLast`); timer D holds re-INVITEs that
  are destroyed (`HeldInviteDestroyed`); an ACK can be lost without being destroyed (`LostExactly`).
- A retransmission whose send fails sets a timer in a terminated transaction (`OnTimerKeepsIff`, `TimerAFindsTerminated`);
  nothing else goes wrong with it (`RightUnlessItsOwnFails`).
- INVITEs that share Call-ID and CSeq share timer D's tables: which events that makes a difference to is stated exactly
  (`DisturbsExactly`, `StrandsExactly`), and a run shows it (`SharedKeyLosesAck`). An INVITE that another with its key makes
  timer D forget gets a second timer (`SecondTimer`, `SharedKeyTwoTimers`).
- A response to a PRACK is taken by any branch but the one that sent it (`PrackResponse`).
- Timers D and K may find their branch proceeding, not completed (`FinalTimersFind`, `TimerDFindsProceeding`,
  `TimerKFindsProceeding`).
- Timer C answers 408 even after a 2xx, and can answer twice (`TimerCFinals`, `TwoTimeouts`, `TimeoutAfterSuccess`); a stray challenge after a 2xx makes the proxy relay a null message
  (`StrayChallengeSendsNull`); a redirect and a cancelled branch tie, so that the sort decides (`TieDecides`).
- A serial search can end with branches never tried: when the send to the next one fails, and for a request other than INVITE
  whenever one is tried, since a branch that is trying does not count as pending (`StopsShort`, `SerialStopsShort`).
- A search can be left with nothing to wait for and no answer given: every send failed at the start, or the last unfinished
  branch ends by a failed retransmission or INFO or by timer D, F or K (`BeginsIdle`, `GoesIdle`, `NeverIdle`).
- Two branches that number a reliable response alike share a PRACK (`SameNumberGoesAstray`, `PrackReachesItsBranch`).
- Timer E of requests other than INVITE is not capped at T2, although RFC 3261, section 17.1.2.2, caps it (`GapDoubles`).
- The irq of a PRACK can outlive its dialog (`PrackIrqCanOutliveDialog`).
- `no_longer_wants_requests` takes a verb but drops the client for every verb (`NoLongerWantsRequests`).
- The comment in `add` of the pending requests says 4 seconds; the constant is 64 seconds, which is what is modelled.
- The comparator given to `std::sort` holds of equal elements, which a strict weak ordering must not. What such a sort yields
  is taken to be any permutation in which ranks never rise; an insertion sort is one (`ByRankSorts`).

## Model

| member | source | states |
|---|---|---|
| SipDialogs.SipDialog.constructor | src/sip-dialog.cpp:68-147 | A new dialog has no timers, no INVITE transaction, no held UPDATE and no pending requests |
| SipDialogs.SipDialog.SetTimerG | src/sip-dialog.hpp:174-179 | Sets the timer G handle; the interval becomes T1 only if none was set |
| SipDialogs.SipDialog.BumpTimerG | src/sip-dialog.hpp:181-184 | The interval doubles up to T2, and nothing else changes |
| DialogControllers.DialogController.NtaIncomingDestroy | src/sip-dialog-controller.cpp:1642 | Demands that the irq was never destroyed before: calling it, as every path but the answer to a plain request does, proves that |
| DialogControllers.DialogController.AnswerPlain | src/controller.cpp:1836-1849 | The irq of a request that was pending, found again or new, is destroyed, also when it was destroyed before |
| DialogControllers.DialogController.RemoveTimerG | src/sip-dialog-controller.cpp:2529-2536 | Demands that the entry is still queued or was lost when it was added: no handle of a fired timer is ever removed; one that is not queued changes nothing |
| DialogControllers.DialogController.RemoveTimerH | src/sip-dialog-controller.cpp:2537-2541 | The same for timer H |
| DialogControllers.DialogController.FindIipByLeg | src/invite-in-progress.cpp:117-124 | The non-unique leg index still finds the one entry of that leg |
| DialogControllers.DialogController.FindIipByIrq | src/invite-in-progress.cpp:99-106 | Finds the entry with that irq, or none exists |
| DialogControllers.DialogController.FindStableByLeg | src/sip-dialog.cpp:361-368 | Finds the stable dialog of that leg, or none exists |
| DialogControllers.DialogController.FindStableById | src/sip-dialog.cpp:369-376 | Finds the stable dialog with that id, or none exists |
| DialogControllers.DialogController.FindDialogByLeg | src/sip-dialog-controller.hpp:219-229 | Invites in progress first, then stable dialogs |
| DialogControllers.DialogController.ClearSipTimers | src/sip-dialog-controller.cpp:2529-2542 | Both entries leave their queues and both handles and the INVITE irq are cleared, and nothing else |
| DialogControllers.DialogController.IipClear | src/invite-in-progress.cpp:155-177 | Forgets the INVITE irq in the dialog, destroys it once, and erases by leg exactly that entry |
| DialogControllers.DialogController.IipClearLeg | src/invite-in-progress.cpp:148-154 | The same for the entry found by leg, if any |
| DialogControllers.DialogController.SdInsert | src/sip-dialog.cpp:352-359 | Inserts unless an indexed key is taken |
| DialogControllers.DialogController.SdClearLeg | src/sip-dialog.cpp:391-396 | Removes the dialogs of that leg |
| DialogControllers.DialogController.SdClearId | src/sip-dialog.cpp:384-389 | Removes the dialog with that id |
| DialogControllers.DialogController.SdClearPtr | src/sip-dialog.cpp:377-382 | Removes that dialog |
| DialogControllers.DialogController.AddTimerG | src/sip-dialog-controller.cpp:1528-1531 | Stores a fresh handle, and queues its entry unless that is lost |
| DialogControllers.DialogController.AddTimerH | src/sip-dialog-controller.cpp:1532-1535 | The same for timer H |
| DialogControllers.DialogController.TakeIrq | src/sip-dialog-controller.cpp:2495-2509 | Removes the irq of that transaction id from the table |
| DialogControllers.DialogController.AddIncomingRequestTransaction | src/sip-dialog-controller.cpp:2483-2487 | Registers the irq under its transaction id |
| DialogControllers.DialogController.AddIncomingInvite | src/sip-dialog-controller.cpp:2338-2346 | Creates the dialog and its invite in progress in one step |
| DialogControllers.DialogController.AnswerUpdate | src/sip-dialog-controller.cpp:1298-1306 | Answers the held UPDATE: its irq leaves the table, the dialog forgets it, and it is destroyed once |
| DialogControllers.DialogController.SendAnswer | src/sip-dialog-controller.cpp:1309-1540 | Status, tables, timers G and H after a response on an invite in progress |
| DialogControllers.DialogController.AnswerInvite | src/sip-dialog-controller.cpp:1290-1645 | The held UPDATE instead of the INVITE when the application says so |
| DialogControllers.DialogController.AnswerRegistered | src/sip-dialog-controller.cpp:1084-1086 | An answer by transaction id takes the irq out of the table and destroys it whatever the status |
| DialogControllers.DialogController.Respond | src/sip-dialog-controller.cpp:1053-1650 | The whole reply path: registered request, invite in progress, or a request set up only now |
| DialogControllers.DialogController.AckRequest | src/sip-dialog-controller.cpp:1659-1691 | ACK stops the retransmissions and ends the invite in progress |
| DialogControllers.DialogController.CancelRequest | src/sip-dialog-controller.cpp:1692-1779 | CANCEL ends dialog and invite in progress of that leg |
| DialogControllers.DialogController.EndDialog | src/sip-dialog-controller.cpp:1890-1925 | BYE or the NOTIFY that ends a subscription |
| DialogControllers.DialogController.RequestFor | src/sip-dialog-controller.cpp:1801-1933 | Any other request in a dialog: refused, held, registered or destroyed, branch by branch |
| DialogControllers.DialogController.OtherRequest | src/sip-dialog-controller.cpp:1780-1933 | The same from the leg on, 481 when no dialog is found |
| DialogControllers.DialogController.FromLeg | src/controller.cpp:1854-1886 | A request on a leg that began with a request to us: 400, 491, or the irq destroyed when no dialog is found, and otherwise the above |
| DialogControllers.DialogController.IrqCallback | src/sip-dialog-controller.cpp:2114-2196 | Callbacks on the INVITE irq: no message, CANCEL, ACK, discarded |
| DialogControllers.DialogController.PrackRequest | src/sip-dialog-controller.cpp:2199-2226 | PRACK is registered when its reliable response is known |
| DialogControllers.DialogController.TimerGFires | src/sip-dialog-controller.cpp:2389-2412 | Retransmits and re-arms, or stops when the INVITE irq is gone |
| DialogControllers.DialogController.TimerHFires | src/sip-dialog-controller.cpp:2418-2482 | Stops timer G and ends the invite in progress and the dialog |
| DialogControllers.DialogController.TimeoutBye | src/sip-dialog-controller.cpp:2521-2528 | Frees the irq of a BYE nobody answered |
| DialogControllers.DialogController.SendInvite | src/sip-dialog-controller.cpp:517-730 | A new UAC invite in progress |
| DialogControllers.DialogController.SendInside | src/sip-dialog-controller.cpp:209-490 | What a request from the application does to the tables |
| DialogControllers.DialogController.ResponseOutside | src/sip-dialog-controller.cpp:867-1050 | What a response to a UAC request does to the tables |
| DialogControllers.DialogController.DestroyDialog | src/sip-dialog.cpp:200-253 | The destructor frees every irq of the dialog that is still registered, each once |
| DialogInvariant.RecordKeeps | src/sip-dialog.hpp:174-206 | Changing fields of one dialog that no table depends on keeps the invariant |
| DialogInvariant.StopKeeps | src/sip-dialog-controller.cpp:2529-2542 | Removing an entry and its handle together keeps handles and queues right |
| DialogInvariant.StopOfLost | src/timer-queue.cpp:139-193 | Stopping a timer whose entry was lost takes nothing out of its queue |
| DialogInvariant.OneIipPerLeg | src/invite-in-progress.hpp:119-147 | Two entries with one leg are the same entry |
| DialogInvariant.IipClearRemovesOne | src/invite-in-progress.cpp:155-177 | Erasing by leg removes exactly the entry that was found |
| DialogInvariant.IipClearKeeps | src/invite-in-progress.cpp:155-177 | Ending an invite in progress leaves no dialog with its irq |
| DialogInvariant.IipInsertKeeps | src/invite-in-progress.cpp:78-98 | A new entry keeps leg, dialog and transaction id one-to-one |
| DialogInvariant.TakeIrqKeeps | src/sip-dialog-controller.cpp:2495-2509 | Taking and destroying a registered irq keeps the tables free of destroyed ones |
| DialogInvariant.RegisterKeeps | src/sip-dialog-controller.cpp:2483-2487 | A registered irq has an owner |
| DialogRuns.RespondKeeps | src/sip-dialog-controller.cpp:1053-1650 | Every reply keeps the invariant |
| DialogRuns.AnswerInviteKeeps | src/sip-dialog-controller.cpp:1290-1645 | Every answer to an invite in progress keeps it |
| DialogRuns.AckKeeps | src/sip-dialog-controller.cpp:1659-1691 | An ACK keeps it |
| DialogRuns.CancelKeeps | src/sip-dialog-controller.cpp:1692-1779 | A CANCEL keeps it and leaves no dialog for the leg |
| DialogRuns.OtherRequestKeeps | src/sip-dialog-controller.cpp:1780-1933 | Any other request keeps it |
| DialogRuns.FromLegKeeps | src/controller.cpp:1854-1886 | So does whatever comes through the controller above |
| DialogRuns.StaleRequestDestroyed | src/controller.cpp:1872-1886 | A request that finds no dialog has its irq destroyed, and nothing else changes |
| DialogRuns.EndDialogKeeps | src/sip-dialog-controller.cpp:1890-1925 | A BYE keeps it, and never takes a destroyed irq from the table |
| DialogRuns.IrqCallbackKeeps | src/sip-dialog-controller.cpp:2114-2196 | A callback keeps it |
| DialogRuns.TimerGKeeps | src/sip-dialog-controller.cpp:2389-2412 | A firing timer G keeps it |
| DialogRuns.TimerHKeeps | src/sip-dialog-controller.cpp:2418-2482 | A firing timer H keeps it |
| DialogRuns.SendInsideKeeps | src/sip-dialog-controller.cpp:209-490 | A request from the application keeps it |
| DialogRuns.ResponseOutsideKeeps | src/sip-dialog-controller.cpp:867-1050 | A response to our INVITE keeps it |
| DialogRuns.ReapKeeps | src/sip-dialog.cpp:248-249 | Destroying an unreferenced dialog keeps it and leaves none of its irqs behind |
| DialogTheorems.StepKeeps | src/sip-dialog-controller.cpp:1053-2542 | Every event keeps the invariant |
| DialogTheorems.EveryRunSafe | src/sip-dialog-controller.cpp:1053-2542 | The invariant holds after every run, in whatever order ACK, CANCEL, BYE, replies and timers come |
| DialogTheorems.RetransmitsLiveIrq | src/sip-dialog-controller.cpp:2389-2441 | Timer G never retransmits on a destroyed transaction: its irq is that of an invite in progress still in the table for the same dialog |
| DialogTheorems.HandleExactlyWhenQueued | src/sip-dialog-controller.cpp:1526-1536 | A queued timer G or H entry has its dialog's handle set; a handle that is set has its entry queued exactly if that was not lost when it was added |
| DialogTheorems.NoneDropped | src/sip-dialog-controller.cpp:1526-1536 | On a run that loses no timer, a handle is set exactly while its entry is queued |
| DialogTheorems.StoppingLostChangesNothing | src/sip-dialog-controller.cpp:2529-2542 | On every run, stopping a lost timer leaves its queue as it is |
| DialogTheorems.DestroyedHowOften | src/sip-dialog-controller.cpp:1103-1249 | An irq is destroyed once, and once more by each plain answer that goes out on it after that |
| DialogTheorems.DestroyedAtMostOnce | src/controller.cpp:1836-1848 | An irq is destroyed at most once exactly if no answer to a pending request found it destroyed already; none in a table has ever been destroyed |
| DialogTheorems.PlainAnswerDestroysAgain | src/sip-dialog-controller.cpp:1843-1861 | The run that does: an OPTIONS in an early dialog that no client takes, then answered |
| DialogTheorems.NoOrphanIrq | src/sip-dialog-controller.cpp:2495-2528 | An irq still registered belongs to a living dialog, to a BYE or to a PRACK |
| DialogTheorems.OneInvitePerLeg | src/invite-in-progress.hpp:119-147 | At most one invite in progress per leg on every run, so clearing by leg removes exactly one |
| DialogTheorems.SameDialogInBothTables | src/sip-dialog-controller.hpp:219-229 | A leg finds the same dialog in either table |
| DialogTheorems.HiddenUpdateMatters | src/sip-dialog-controller.cpp:1298-1305 | If an application knew the transaction id of a held UPDATE, one irq could be destroyed twice |
| DialogTheorems.PrackIrqCanOutliveDialog | src/sip-dialog-controller.cpp:2199-2226 | A run after which the irq of a PRACK is registered although its dialog is gone |
| DialogIntervals.AnswersStartTimers | src/sip-dialog-controller.cpp:1515-1540 | On every run: a 200 to an INVITE without a final response, whose dialog is not stable, makes the dialog stable and starts timer G exactly over a datagram transport, with the interval T1 (500 ms), and timer H always, each entry queued unless lost, and remembers the INVITE irq; no other answer starts or stops a timer |
| DialogIntervals.TimerGGoesOn | src/sip-dialog-controller.cpp:2389-2412 | On every run a firing timer G is set again, for twice the interval and 4 s at most, exactly while its dialog has the INVITE irq |
| DialogEffects.TimerGFiring | src/sip-dialog-controller.cpp:2389-2412 | Without that irq no timer of the dialog is left; nothing else changes either way |
| DialogEffects.OtherAnswers | src/sip-dialog-controller.cpp:1290-1645 | What any other answer does to an INVITE or SUBSCRIBE in progress: a held UPDATE is answered and its irq destroyed, a final answer given before or a stable dialog leave everything as it was, a SUBSCRIBE is over and stable after 200 or 202 |
| DialogEffects.AnswerTakesIrq | src/sip-dialog-controller.cpp:1084-1086 | An answer to a registered request takes its irq out of the table and destroys it, for the first time |
| DialogEffects.AckStops | src/sip-dialog-controller.cpp:1659-1691 | After an ACK whose leg finds a dialog, that has no timer G or H, neither handle nor entry, and no INVITE irq; no invite in progress has the leg, stable dialogs are the same, the INVITE irq and the ACK's own are destroyed once |
| DialogEffects.CallbackEnds | src/sip-dialog-controller.cpp:2114-2196 | The same for an ACK that comes back on the INVITE irq, and for its end without a message; a CANCEL leaves the timers |
| DialogEffects.ThroughTheLeg | src/controller.cpp:1854-1886 | What comes in through the controller above has the effect that it has straight, unless it is not valid or an INVITE without a tag in an answered dialog |
| DialogEffects.CancelEnds | src/sip-dialog-controller.cpp:1692-1779 | After a CANCEL no timer, invite in progress or stable dialog of the leg is left, unless it is for an INVITE that an application still has |
| DialogEffects.ByeEnds | src/sip-dialog-controller.cpp:1890-1925 | The same after a BYE, or the NOTIFY that ends a subscription if a client takes it; its irq waits if a client takes it and is destroyed otherwise |
| DialogEffects.RequestWaits | src/sip-dialog-controller.cpp:1801-1933 | A request that does not end its dialog touches no timer and no table; its irq is registered exactly if it waits for a client and destroyed exactly if it is given up or made pending |
| DialogEffects.TimerHEnds | src/sip-dialog-controller.cpp:2418-2482 | Timer H ends its dialog as a CANCEL does |
| DialogEffects.OwnAckEnds | src/sip-dialog-controller.cpp:350-440 | The application's ACK ends the INVITE in progress after a 200, and the dialog with it if a BYE follows; after a failure it ends the dialog |
| DialogEffects.OwnByeAndInvite | src/sip-dialog-controller.cpp:279-430 | The application's BYE ends an INVITE of ours in progress in its dialog; its re-INVITE is one in progress |
| DialogEffects.OwnInviteWaits | src/sip-dialog-controller.cpp:670-720 | An INVITE of ours is in progress from when it is sent |
| DialogEffects.ResponseSettles | src/sip-dialog-controller.cpp:900-1018 | A response to our INVITE or SUBSCRIBE leaves its status; when the dialog becomes stable and when the request is over, exactly |
| DialogEffects.ByeTimesOut | src/sip-dialog-controller.cpp:2521-2528 | A BYE that nobody answered is given up, its irq destroyed for the first time |
| DialogEffects.PrackWaits | src/sip-dialog-controller.cpp:2199-2226 | A PRACK for a known reliable response waits for the application |
| DialogEffects.NothingOutlives | src/sip-dialog.cpp:200-253 | When the destructor has run exactly the irqs of the dialog's requests have left the table, each destroyed once |
| TimerSpec.InsertPos | src/timer-queue.cpp:83-108 | Everything before the place is not later, what follows is later: insertion is stable |
| TimerSpec.InsertedSorted | src/timer-queue.cpp:83-108 | Insertion keeps deadlines in order |
| TimerSpec.ScanFallsOff | src/timer-queue.cpp:74-109 | The scan finds no place exactly when the new deadline equals the last one |
| TimerSpec.InsertedContents | src/timer-queue.cpp:83-108 | Insertion adds exactly the one entry |
| TimerQueues.TimerQueue.Add | src/timer-queue.cpp:44-137 | Chains, length and alarm after an add: stable sorted insertion, or nothing linked when it falls off |
| TimerQueues.TimerQueue.Unlink | src/timer-queue.cpp:146-171 | Both chains list the queue without that entry |
| TimerQueues.TimerQueue.Remove | src/timer-queue.cpp:139-193 | Deletes exactly that entry, re-arms for a new head, ignores an entry that is not queued |
| TimerQueues.TimerQueue.DetachExpired | src/timer-queue.cpp:211-230 | At most one expired entry leaves the queue, since its next pointer is nulled first |
| TimerQueues.TimerQueue.DoTimer | src/timer-queue.cpp:195-253 | The overdue head is detached and the alarm set to the next deadline |
| TimerQueues.TimerQueue.PositionOf | src/timer-queue.cpp:255-266 | The index of the entry, or -1 if it is not queued |
| TimerQueues.TimerQueue.NumberOfElements | src/timer-queue.cpp:267-275 | The true length of the chain |
| TimerQueues.TimerQueue.IsEmpty | src/timer-queue.hpp:62-63 | True exactly if the queue is empty and no add was ever lost |
| TimerRuns.EveryRun | src/timer-queue.cpp:195-253 | Under a monotone clock nothing fires early, fired deadlines never fall, and each entry is queued, fired, removed or lost, once |
| TimerRuns.NothingLost | src/timer-queue.cpp:74-109 | A run loses no entry exactly if no add meets the deadline of the last entry |
| TimerRuns.DrainsOnePerWake | src/timer-queue.cpp:211-246 | k overdue entries drain in exactly k wake-ups, in order, each with the alarm armed |
| TimerRuns.EqualDeadlineIsLost | src/timer-queue.cpp:74-109 | Two entries with one deadline: the second is lost |
| FramingSpec.ValueOfToString | src/client.cpp:465-467 | Reading a printed length gives the length back |
| FramingSpec.ReadLength | src/client.cpp:260-288 | A length that was read leaves fewer bytes |
| FramingClients.BaseClient.ReadMessageLength | src/client.cpp:260-288 | The byte loop reads a length, puts an unfinished one back, or fails in one of two ways |
| FramingClients.BaseClient.StartMessage | src/client.cpp:365-378 | Both places that read a length, with their handlers |
| FramingClients.BaseClient.ReadHandler | src/client.cpp:350-445 | Buffer, length and messages delivered after one read of any bytes |
| FramingClients.BaseClient.Send | src/client.cpp:453-471 | Everything sent is the encoding of the nonempty messages handed in |
| FramingClients.EncodeAllSnoc | src/client.cpp:465-467 | Encodings of messages are concatenated |
| FramingProofs.NextLengthCorrect | src/client.cpp:260-288 | On a well-formed stream a length is read whole or waited for |
| FramingProofs.DrainCorrect | src/client.cpp:380-438 | The loop delivers exactly the whole messages at the front of the buffer |
| FramingProofs.FeedCorrect | src/client.cpp:350-445 | One read delivers a prefix of the messages and leaves an unfinished one |
| FramingProofs.NothingOverwritten | src/client.hpp:93 | Between reads at most 4036 bytes are held, so a read of 8192 never overwrites in a ring of 12228 |
| FramingProofs.FramingIsLossless | src/client.cpp:350-471 | Every split of every stream of messages of 1 to 4037 bytes delivers exactly those messages in order, or those up to the first that is refused |
| FramingProofs.LongerIsOverwritten | src/client.cpp:95-96 | The bound is exact: any longer message that fits the ring, in a stream longer than the ring, can be cut so that its first byte is overwritten and the bytes shifted by one are delivered |
| FramingProofs.ShiftedIsSame | src/client.cpp:380-386 | Those are the message itself exactly if all its bytes and the next one are the same |
| FramingProofs.LongestNeverArrives | src/client.cpp:260-288 | A message longer than the ring is never delivered, however its encoding is cut |
| ProxyTransactions.ClientTransaction.constructor | src/sip-proxy-controller.cpp:324-336 | A new branch holds no timers and no answer |
| ProxyTransactions.ClientTransaction.ChangeState | src/sip-proxy-controller.cpp:368-476 | State and timers after a change of state, for INVITE and for other requests |
| ProxyTransactions.ClientTransaction.Forward | src/sip-proxy-controller.cpp:527-632 | First or later transmission, no transport, or a failed send |
| ProxyTransactions.ClientTransaction.Retransmit | src/sip-proxy-controller.cpp:633-650 | The interval doubles and the timer is set again, also after a failed send |
| ProxyTransactions.ClientTransaction.CancelTransaction | src/sip-proxy-controller.cpp:820-890 | Calling, not started and proceeding branches, and whether a CANCEL went out |
| ProxyTransactions.ClientTransaction.Take | src/sip-proxy-controller.cpp:693-736 | Status, state and timers after a response to the request |
| ProxyTransactions.ClientTransaction.Finish | src/sip-proxy-controller.cpp:734-756 | RSeq and final response are stored |
| ProxyTransactions.ClientTransaction.Expire | src/sip-proxy-controller.cpp:980-1054 | What each timer does to its own branch |
| ProxyTimers.TimersFireWhereMeant | src/sip-proxy-controller.cpp:980-1054 | The states asserted by the handlers of timers B, C and provisional, and that of F; those of A and E, but for a transaction that has terminated |
| ProxyTimers.FinalTimersExactly | src/sip-proxy-controller.cpp:1014-1054 | A firing timer D or K finds its branch not completed exactly if a late response has led back from completed since, or it is a further entry of K |
| ProxyTimers.HandlesTell | src/sip-proxy-controller.cpp:386-476 | An entry that is queued has its handle set and is the only one; a handle that is set has its entry queued exactly if its add was not lost |
| ProxyTimers.StopOfLost | src/timer-queue.cpp:139-193 | Removing a lost entry changes nothing in the queue |
| ProxyTimers.CancelKeeps | src/sip-proxy-controller.cpp:820-845 | Cancelling keeps the timers right, although E, F and K are not removed |
| ProxyTimers.TakeStatusKeeps | src/sip-proxy-controller.cpp:693-756 | Every response keeps the timers right, also a late provisional one after a final one |
| ProxyTimers.LateKeeps | src/sip-proxy-controller.cpp:673-679 | So does the late response to a branch that was cancelled before |
| ProxyTimers.ForwardKeeps | src/sip-proxy-controller.cpp:527-632 | So does a first transmission, failed or not |
| ProxyTimers.OnTimerKeepsIff | src/sip-proxy-controller.cpp:633-650 | A firing timer keeps them right exactly unless it retransmits and that send fails |
| ProxyTimers.SoundTimer | src/sip-proxy-controller.cpp:633-650 | However the send goes, a firing timer keeps all right but timers A and E of a transaction that a failed retransmission has terminated |
| ProxyCores.ProxyCore.constructor | src/sip-proxy-controller.cpp:903-922 | All branches wait to be launched |
| ProxyCores.ProxyCore.StartRequests | src/sip-proxy-controller.cpp:1056-1082 | Launches every branch not started, or in serial mode the first that can be sent |
| ProxyCores.ProxyCore.CancelOutstandingRequests | src/sip-proxy-controller.cpp:1083-1092 | Every branch of the vector is cancelled |
| ProxyCores.ProxyCore.RemoveTerminated | src/sip-proxy-controller.cpp:923-939 | Keeps exactly the branches not terminated, in order |
| ProxyCores.ProxyCore.ExhaustedAllTargets | src/sip-proxy-controller.cpp:1161-1164 | No branch is calling or proceeding |
| ProxyCores.ProxyCore.SortByRank | src/sip-proxy-controller.cpp:1165-1168 | The vector in an order that the sort may yield |
| ProxyCores.ProxyCore.SendBest | src/sip-proxy-controller.cpp:1169-1185 | 408, the stored response, or the null message |
| ProxyCores.ProxyCore.ForwardBestResponse | src/sip-proxy-controller.cpp:1165-1190 | Sort and send |
| ProxyCores.ProxyCore.NotifyForwarded200OK | src/sip-proxy-controller.cpp:940-945 | A 2xx ends the search and cancels the rest |
| ProxyCores.ProxyCore.AddClientTransactions | src/sip-proxy-controller.cpp:946-955 | Redirect targets go in after the branch with that target |
| ProxyCores.ProxyCore.TakeOwn | src/sip-proxy-controller.cpp:693-775 | A response to the request, from state change to relay |
| ProxyCores.ProxyCore.ClientResponse | src/sip-proxy-controller.cpp:652-818 | Every case of a response that carries a branch of ours |
| ProxyCores.ProxyCore.FindClient | src/sip-proxy-controller.cpp:652-659 | The first branch that takes the response: the one it names, or for a PRACK the first that did not send it |
| ProxyCores.ProxyCore.PrackArrives | src/sip-proxy-controller.cpp:477-489 | The first branch with that number gets the key its PRACK goes out with |
| ProxyCores.ProxyCore.ProcessResponse | src/sip-proxy-controller.cpp:1105-1136 | A response from downstream, all the way to the best response |
| ProxyCores.ProxyCore.TimerFires | src/sip-proxy-controller.cpp:980-1054 | All eight timers |
| ProxyCores.ProxyCore.Begin | src/sip-proxy-controller.cpp:1284-1302 | Starts the search, or answers 500 when nothing could be sent |
| ProxyCores.ProxyCore.CancelArrives | src/sip-proxy-controller.cpp:1475-1489 | Answers 487 and cancels every branch |
| ProxyCores.ProxyCore.InfoArrives | src/sip-proxy-controller.cpp:1149-1160 | An INFO goes to the first branch in call set-up |
| ProxyRuns.StartFromKeeps | src/sip-proxy-controller.cpp:1056-1082 | Launching keeps timers and records right, and only while the search is on |
| ProxyRuns.CancelFromEffect | src/sip-proxy-controller.cpp:1083-1092 | Exactly the branches of the vector are cancelled, each once, and the CANCELs that went out are recorded |
| ProxyRuns.RemainingFacts | src/sip-proxy-controller.cpp:923-939 | A branch stays exactly if it is not gone |
| ProxyRuns.SuccessTaken | src/sip-proxy-controller.cpp:713-718 | A 2xx keeps everything right and ends the search |
| ProxyRuns.AddKeeps | src/sip-proxy-controller.cpp:946-955 | Redirect targets keep the vector free of duplicates |
| ProxyTheorems.StepKeeps | src/sip-proxy-controller.cpp:652-1190 | Every event, however its sends go, keeps the invariant and the search one-way |
| ProxyTheorems.TimersNeverSurprise | src/sip-proxy-controller.cpp:368-476 | On every run each timer is queued only in its states, A and E also in a transaction that a failed retransmission has terminated; all but K at most once and only with the handle set; with the handle set exactly if its add was not lost |
| ProxyTheorems.FinalTimersFind | src/sip-proxy-controller.cpp:1014-1054 | On every run, when timers D and K find a state they do not assert, exactly |
| ProxyTheorems.LeadsBack | src/sip-proxy-controller.cpp:673-736 | The responses that lead a completed branch back to proceeding, exactly |
| ProxyTheorems.SearchIsOneWay | src/sip-proxy-controller.cpp:1056-1082 | On every run, however its sends go, each branch is launched at most once, and none once the search is over |
| ProxyTheorems.PrackResponse | src/sip-proxy-controller.cpp:652-659 | A response to a PRACK is never taken by the branch that sent it, and changes nothing in the one that takes it unless PRACK is what is proxied |
| ProxyFailures.FailedExactly | src/sip-proxy-controller.cpp:633-650 | On every run a transaction is marked failed exactly if a retransmission of its own has failed in the send |
| ProxyFailures.RightUnlessItsOwnFails | src/sip-proxy-controller.cpp:368-476 | On every run the timers of a branch are right in every respect unless a retransmission of its own has failed in the send and it has terminated |
| ProxyTheorems.StartsWhatItShould | src/sip-proxy-controller.cpp:1067-1079 | A serial proxy starts one branch at most; one that starts none, or is not serial, leaves no branch waiting |
| ProxyTheorems.CancelReachesAll | src/sip-proxy-controller.cpp:1083-1092 | After the branches are cancelled none is calling or waiting, and each proceeding one has had a CANCEL sent (RFC 3261, section 16.10) |
| ProxyTheorems.SuccessEndsSearch | src/sip-proxy-controller.cpp:713-718 | A 2xx for a branch that waits for its final response is relayed at once, ends the search for good and leaves no branch calling or waiting |
| ProxyEffects.Begins | src/sip-proxy-controller.cpp:1284-1302 | The targets are tried in order, serially up to the first with a transport; 500 goes upstream exactly if there is a transport for none |
| ProxyEffects.LaunchSetsTimers | src/sip-proxy-controller.cpp:368-476 | The timers of a branch that has been sent its request: A, B, C and the provisional one if configured for an INVITE, E and F otherwise, first interval 500 ms, each queued unless lost |
| ProxyEffects.SearchNeedsPending | src/sip-proxy-controller.cpp:1105-1136 | After any response the search is on only if a branch is calling or proceeding |
| ProxyEffects.FailureMovesOn | src/sip-proxy-controller.cpp:1105-1136 | A response above 200 that is neither a 2xx taken nor a challenge kept, while the search is on: the next waiting branch is tried, all of them if not serial; the search goes on exactly if a branch is then pending, otherwise one final response goes upstream; branches are left waiting only by a serial search that stopped at one, and by one for an INVITE that is over only if the send failed there; the response is kept with its branch |
| ProxyEffects.StopsShort | src/sip-proxy-controller.cpp:1127-1132 | When a failure ends the search although branches wait, exactly |
| ProxyEffects.SerialStopsShort | src/sip-proxy-controller.cpp:1127-1132 | A run that does: 486 from the first of three, the send to the second fails, and the third is never tried |
| ProxyEffects.ChallengeEndsSearch | src/sip-proxy-controller.cpp:1118-1125 | A challenge that is kept ends the search: nothing more is started, none is left waiting, and the best response goes upstream |
| ProxyEffects.ProvisionalRelayed | src/sip-proxy-controller.cpp:693-775 | A provisional response to a pending branch is relayed, but for 100, and leaves it proceeding; nothing is started or ended |
| ProxyEffects.TimerBAnswers | src/sip-proxy-controller.cpp:988-996 | Timer B takes its branch out of the vector; one final response goes upstream exactly if the search is on and no other branch is pending, the proxy's own 408 if none has completed, and none otherwise |
| ProxyEffects.ProvisionalMovesOn | src/sip-proxy-controller.cpp:1042-1054 | The provisional timer completes its branch without a response and moves the search on like a failure |
| ProxyEffects.TimerOnlyRemoves | src/sip-proxy-controller.cpp:1015-1041 | Timers D, F and K take their branch out and do nothing else |
| ProxyEffects.TimerCCancels | src/sip-proxy-controller.cpp:998-1014 | Timer C takes its branch out, with a CANCEL sent first if that was proceeding, starts no other, and ends the search exactly if no other branch is pending |
| ProxyEffects.RedirectAdds | src/sip-proxy-controller.cpp:946-955 | The targets of a redirect are waiting branches, in order right after the first branch with the redirected target |
| ProxyEffects.RedirectFollowed | src/sip-proxy-controller.cpp:763-776 | A redirect that is followed leaves all its targets among the branches, all launched unless the search is serial |
| ProxyEffects.TimerResends | src/sip-proxy-controller.cpp:633-650 | Timers A and E send the request once more and, if it goes out, are set again for twice the time |
| ProxyEffects.CancelEndsSearch | src/sip-proxy-controller.cpp:1475-1489 | A CANCEL is answered with 487, ends the search and cancels each branch of the vector as its state asks for |
| ProxyEffects.InfoPassedOn | src/sip-proxy-controller.cpp:1149-1160 | An INFO goes to one pending branch if there is any, and changes nothing else |
| ProxyEffects.GoesIdle | src/sip-proxy-controller.cpp:980-1054 | The events that leave a search with all branches completed or terminated, exactly |
| ProxyEffects.BeginsIdle | src/sip-proxy-controller.cpp:1056-1082 | When a proxy is left so from the start, exactly |
| ProxyEffects.NeverIdle | src/sip-proxy-controller.cpp:980-1136 | On every run a search that is on has an unfinished branch unless one of these has come |
| ProxyBest.OrderIsByRank | src/sip-proxy-controller.cpp:103-146 | The comparator is "rank at least" for a total preorder (RFC 3261, section 16.7, step 6) |
| ProxyBest.InOrderByComparator | src/sip-proxy-controller.cpp:1165-1168 | An order that the comparator accepts is one in which ranks never rise |
| ProxyBest.SortedInOrder | src/sip-proxy-controller.cpp:1165-1168 | Whatever the sort yields is such an order |
| ProxyBest.BestIsForwarded | src/sip-proxy-controller.cpp:1165-1185 | If some branch failed with 400 or more, the stored response of a top-ranked branch goes upstream, never the proxy's own 408 |
| ProxyBest.BestExactly | src/sip-proxy-controller.cpp:1169-1181 | When the null message and when the own 408 are sent, both ways |
| ProxyBest.TieDecides | src/sip-proxy-controller.cpp:103-146 | A redirect and a cancelled branch tie: the order of the sort decides between relay and 408 |
| ProxyBest.OwnTimeoutRuledOut | src/sip-proxy-controller.cpp:1169-1176 | Half of the exact condition for the own 408: ruled out in every order |
| ProxyBest.OwnTimeoutPossible | src/sip-proxy-controller.cpp:1169-1176 | The other half: otherwise some order of the same branches leads to it |
| ProxyBest.SearchingNeverNull | src/sip-proxy-controller.cpp:1165-1185 | While the search is on the null message is never sent |
| ProxyBest.StrayChallengeSendsNull | src/sip-proxy-controller.cpp:1118-1125 | After a 2xx to another method, a challenge of no branch makes the proxy send the null message |
| ProxyBest.TimerCLeaves | src/sip-proxy-controller.cpp:998-1014 | Timer C answers 408 whether or not the search is on, and leaves the branches exhausted exactly if no other is pending |
| ProxyBest.TimerCFinals | src/sip-proxy-controller.cpp:998-1014 | It never adds no final response; it adds a second exactly if the search is on, no other branch is pending and the best response can be sent; the second is another 408 when that is the proxy's own answer |
| ProxyWitnesses.TwoTimeouts | src/sip-proxy-controller.cpp:998-1014 | A run in which timer C answers 408 twice |
| ProxyWitnesses.TimeoutAfterSuccess | src/sip-proxy-controller.cpp:699-703 | A run in which timer C, started again by a late 180, answers 408 after a 200 was relayed |
| ProxyWitnesses.TimerDFindsProceeding | src/sip-proxy-controller.cpp:673-679 | A run after which timer D is queued for a branch that is proceeding |
| ProxyWitnesses.TimerKFindsProceeding | src/sip-proxy-controller.cpp:693-703 | A run after which timer K is |
| ProxyWitnesses.TimerAFindsTerminated | src/sip-proxy-controller.cpp:633-650 | A run after which timer A is queued for a branch that has terminated |
| ProxySorts.ByRankSorts | src/sip-proxy-controller.cpp:1165-1168 | An insertion sort by rank is a sort that the comparator allows |
| ReliableProvisionals.ServerTransaction.ForwardReliable | src/sip-proxy-controller.cpp:175-188 | Next number, drawn at random the first time, wrapping at 32 bits |
| ReliableProvisionals.ServerTransaction.GetReplacedRSeq | src/sip-proxy-controller.cpp:162-169 | The original number, zero if unknown |
| ReliableProvisionals.ServerTransaction.ForwardPrack | src/sip-proxy-controller.cpp:1137-1148 | The first branch with that number, exactly if there is one, and the number put into RAck |
| ReliableProvisionals.RunOfNumbers | src/sip-proxy-controller.cpp:175-188 | Short of a wrap the map holds exactly the numbers sent, each with its original |
| ReliableProvisionals.ConsecutiveUpstream | src/sip-proxy-controller.cpp:175-188 | Upstream numbers are consecutive exactly if they do not wrap (RFC 3262) |
| ReliableProvisionals.PrackGetsItsNumber | src/sip-proxy-controller.cpp:477-485 | A PRACK for any response so far is given the number that the response came with |
| ReliableProvisionals.PrackReachesItsBranch | src/sip-proxy-controller.cpp:1137-1148 | It reaches the branch that sent the response exactly if no earlier branch holds the same number |
| ReliableProvisionals.SameNumberGoesAstray | src/sip-proxy-controller.cpp:1137-1148 | Two branches with the same number: the PRACK goes to the first |
| ReliableProvisionals.WrapLosesTheNumber | src/sip-proxy-controller.cpp:178-184 | Past the wrap the rewriting is not undone |
| PendingRequests.PendingRequestController.Add | src/pending-request-controller.cpp:201-221 | Both tables and the timer queue after a new request |
| PendingRequests.PendingRequestController.FindAndRemove | src/pending-request-controller.cpp:223-242 | Both tables and the queue after a request has left; demands the asserted entry |
| PendingRequests.PendingRequestController.ProcessNewRequest | src/pending-request-controller.cpp:78-105 | 481, 503 or a waiting request |
| PendingRequests.PendingRequestController.DoTimer | src/pending-request-controller.cpp:272-277 | One expired entry at most, and its request is given up on |
| PendingRuns.AddSame | src/controller.cpp:1654-1660 | Adding keeps the tables alike exactly if the SIP identifier is not there yet |
| PendingRuns.AddTimed | src/pending-request-controller.cpp:210-212 | Adding gives every request its timer exactly if the deadline is not that of the last one queued |
| PendingRuns.StepKeeps | src/pending-request-controller.cpp:201-277 | Every event keeps the tables alike and the timers right |
| PendingRuns.TablesAgree | src/pending-request-controller.cpp:201-242 | On every run both tables hold the same requests, the assertion never fails, and each request leaves exactly once |
| PendingRuns.OneTimerEach | src/pending-request-controller.cpp:201-242 | On every run without equal deadlines each waiting request has exactly one timer |
| PendingRuns.WhatArrives | src/pending-request-controller.cpp:78-105 | Which requests wait, in both tables and with a timer at 64000 ms unless that is lost, and which are refused with 481 and 503 |
| PendingRuns.DecisionEnds | src/pending-request-controller.cpp:223-242 | A decision takes its request out of both tables and exactly its timer out of the queue |
| PendingRuns.NotGivenUpEarly | src/pending-request-controller.cpp:34 | On every run a wake-up gives up on a request exactly if that is at the head of the queue and more than 64000 ms have passed since it arrived |
| PendingRuns.NearerTheHead | src/pending-request-controller.cpp:272-277 | Each wake-up after that gives up on it or brings it one place nearer the head |
| PendingRuns.WithoutTheGuard | src/controller.cpp:1654-1660 | Without the retransmission guard the tables differ and the assertion fails |
| PendingRuns.SameInstantHasNoTimer | src/pending-request-controller.cpp:210-212 | Of two requests in one instant the second has no timer |
| RoundRobins.ClientController.WantsRequests | src/client-controller.cpp:215-227 | The verb's registrations gain exactly this one; those of other verbs and every offset are unchanged, and the verb has an offset |
| RoundRobinFacts.RegistersOne | src/client-controller.cpp:215-227 | The same of the specification function |
| RoundRobinFacts.RegistersPossible | src/client-controller.cpp:215-227 | For every tag those that can take a request keep their order, with the new one among them exactly if it is connected and has the tag |
| RoundRobinFacts.WithoutKeepsOrder | src/client-controller.cpp:230-246 | The client is gone, and every other registration is kept with the same ones before it |
| RoundRobinFacts.LeavingUndoes | src/client-controller.cpp:215-246 | Leaving undoes registering |
| RoundRobins.ClientController.NoLongerWantsRequests | src/client-controller.cpp:230-246 | The client loses its registrations for every verb, and nobody else loses any |
| RoundRobins.ClientController.Prune | src/client-controller.cpp:256-268 | Drops exactly the disconnected and counts those that can take the request |
| RoundRobins.ClientController.SelectClientForRequestOutsideDialog | src/client-controller.cpp:248-298 | Registrations, offsets and the client picked |
| RoundRobinFairness.KeysDiffer | src/client-controller.cpp:283-285 | Two methods and tags share an offset exactly if they are the same, methods having no colon |
| RoundRobinFairness.PossiblesSame | src/client-controller.cpp:258-270 | Pruning at one time does not change who can take a request at another |
| RoundRobinFairness.PicksCycle | src/client-controller.cpp:248-298 | However calls interleave, the picks for a method and tag go round the possible clients in order |
| RoundRobinFairness.Fair | src/client-controller.cpp:248-298 | Any n picks in a row give each of k registrations n/k, rounded down or up |
| RoundRobinFairness.TurnsArePicks | src/client-controller.cpp:248-298 | Counted by client rather than by position |
| RoundRobinFairness.NobodyOnlyIfNone | src/client-controller.cpp:269-277 | Nobody is picked exactly if no connected client is registered for the method with the tag |
| RoundRobinFairness.ColonShares | src/client-controller.cpp:283-285 | A method named like another one with a tag would share its offset |
| TimerDHandlers.TimerDHandler.AddInvite | src/sip-dialog-controller.cpp:2551-2565 | The INVITE waits for its ACK unless its key is taken, and has a timer unless that is lost |
| TimerDHandlers.TimerDHandler.AddAck | src/sip-dialog-controller.cpp:2568-2581 | The ACK is stored for the INVITE with its key, if one waits |
| TimerDHandlers.TimerDHandler.ResendIfNeeded | src/sip-dialog-controller.cpp:2584-2598 | Whether it is a retransmission and which ACK is sent again |
| TimerDHandlers.TimerDHandler.TimerD | src/sip-dialog-controller.cpp:2601-2616 | The INVITE is forgotten and its ACK destroyed |
| TimerDHandlers.TimerDHandler.ClearTimerD | src/sip-dialog-controller.cpp:2618-2637 | The same, and whether an ACK was freed; the timer stays queued |
| TimerDRuns.KeysAgree | src/sip-dialog-controller.cpp:48-53 | Two transactions have the same key exactly if Call-ID and CSeq agree |
| TimerDRuns.StepKeeps | src/sip-dialog-controller.cpp:2551-2637 | Every event, added with the check or without, keeps the tables and ACKs right and timers only for INVITEs that were added, whatever keys INVITEs share and however many timers they have |
| TimerDRuns.ResentExactlyWhileHeld | src/sip-dialog-controller.cpp:2584-2598 | As long as no other INVITE with its Call-ID and CSeq is added or ended: a response is a retransmission exactly from the last addInvite until timer D or clearTimerD, and meanwhile it has one timer, or none exactly if that was lost |
| TimerDRuns.AddedAgain | src/sip-dialog-controller.cpp:884-1002 | A run in which an INVITE is added again by a 200 OK after timer D |
| TimerDRuns.AcksDestroyedOnce | src/sip-dialog-controller.cpp:2601-2637 | On every run each stored ACK is destroyed once it is no longer held, and never twice; an INVITE is in one table at most; when all are ended, the ACKs still held are exactly those of stranded INVITEs |
| TimerDRuns.StrandsExactly | src/sip-dialog-controller.cpp:2601-2637 | Ending an INVITE leaves its ACK behind exactly if something else waits under its key; a firing timer leaves none to end it again exactly if it was the only one |
| TimerDRuns.DisturbsExactly | src/sip-dialog-controller.cpp:2551-2637 | Adding an INVITE, with the check or without, or ending one changes whether the responses to another are retransmissions exactly if the two share Call-ID and CSeq, the other has no ACK, and something waits under that key for ending and nothing for adding |
| TimerDRuns.AckDisturbsExactly | src/sip-dialog-controller.cpp:2568-2581 | Which INVITEs an ACK changes that for, exactly |
| TimerDRuns.GuardImpliesAssertion | src/sip-dialog-controller.cpp:884-889 | The check before it makes the assertion in addInvite hold |
| TimerDRuns.ExposesExactly | src/sip-dialog-controller.cpp:884-1002 | An event leaves an INVITE with one timer to be added once more exactly if it makes timer D forget it: it has no ACK, its key waits, and another with its key is ended or takes the ACK; or that was so before |
| TimerDRuns.TimersCounted | src/sip-dialog-controller.cpp:2561-2616 | An INVITE has as many timers as were queued for it less those that fired |
| TimerDRuns.SecondTimer | src/sip-dialog-controller.cpp:884-1002 | A 200 OK gives an INVITE a second timer exactly if fewer fired than were queued; only after an event that made timer D forget it, and after any such event the next one does |
| TimerDRuns.SharedKeyLosesAck | src/sip-dialog-controller.cpp:2601-2616 | A run with a shared key after which the second INVITE is forgotten and the ACK of the first is left |
| TimerDRuns.SharedKeyTwoTimers | src/sip-dialog-controller.cpp:2551-2616 | That run continued: the forgotten INVITE is added again and has two timers, one of which outlasts its end |
| OutgoingControllers.OutgoingController.ClearRip | src/sip-dialog-controller.cpp:2365-2372 | The transaction is destroyed and leaves the table if it was there |
| OutgoingControllers.OutgoingController.SendAck | src/sip-dialog-controller.cpp:350-384 | An ACK goes to timer D, is destroyed at once, or is kept by its dialog in place of an earlier one |
| OutgoingControllers.OutgoingController.GetTport | src/sip-dialog.cpp:285-306 | The delayed ACK is destroyed once its transport is known |
| OutgoingControllers.OutgoingController.ResponseInside | src/sip-dialog-controller.cpp:1941-2014 | A response to a request in a dialog: timer D gets a re-INVITE, the transaction is destroyed |
| OutgoingControllers.OutgoingController.ResponseOutside | src/sip-dialog-controller.cpp:1017-1026 | A final response to a request outside a dialog destroys its transaction |
| OutgoingControllers.OutgoingController.ResponseToRefresh | src/sip-dialog-controller.cpp:2015-2113 | A final response to a refreshing re-INVITE, or none, destroys it |
| OutgoingControllers.OutgoingController.ClearRipByDialogId | src/sip-dialog-controller.cpp:2373-2387 | One request of the dialog, if it has any, is destroyed |
| OutgoingControllers.OutgoingController.DestroyDialog | src/sip-dialog.cpp:234-246 | Timer D forgets the INVITE, and the delayed ACK and the INVITE are destroyed |
| OutgoingRuns.TimerDTakesPart | src/sip-dialog-controller.cpp:884-1002 | What timer D is asked to do is what its own runs allow: it is never asked for an INVITE that clearTimerD was called for, and a re-INVITE is added once |
| OutgoingRuns.TimerDRun | src/sip-dialog-controller.cpp:2551-2637 | Timer D goes through one of its own runs on every run of the controller, so that their results hold here |
| OutgoingRuns.StepKeeps | src/sip-dialog-controller.cpp:2352-2387 | Every event keeps each outgoing transaction in its one place, also with keys that INVITEs share |
| OutgoingRuns.DestroyedAtMostOnce | src/sip-dialog-controller.cpp:2365-2387 | On every run no outgoing transaction is destroyed twice, and none that is still referred to has been destroyed |
| OutgoingRuns.DestroysExactly | src/sip-dialog-controller.cpp:2365-2387 | Which events destroy which transaction, exactly, and once each |
| OutgoingRuns.OneHolder | src/sip-dialog-controller.cpp:2352-2387 | Each is held in exactly one place until it is destroyed or lost |
| OutgoingRuns.LostExactly | src/sip-dialog-controller.cpp:2568-2581 | Lost are exactly the ACKs for which no INVITE waits with timer D and the delayed ACKs that another replaces |
| OutgoingRuns.NothingLeftButLost | src/sip-dialog.cpp:234-246 | When nothing is held any more, every transaction has been destroyed but exactly those |
| OutgoingRuns.HeldInviteDestroyed | src/sip-dialog-controller.cpp:1960-2005 | An INVITE that timer D holds has been destroyed exactly if no dialog has it; if it is not stranded, exactly if it was sent inside a dialog |
| OutgoingRuns.ReinviteAssertion | src/sip-dialog-controller.cpp:1963-1966 | The assertion in addInvite fails for a re-INVITE exactly if another INVITE waits under its key |
| OutgoingRuns.AnyResponseIsTheLast | src/sip-dialog-controller.cpp:1941-2014 | A response in a dialog always finds its request and, provisional or not, is the last one to |
| Liveness.LivenessTracker.TrackTportLiveness | src/sip-dialog-controller.cpp:814-865 | Counters and the connection shut, fast path included |
| LivenessRuns.CountersExact | src/sip-dialog-controller.cpp:814-865 | A counter is the number of timeouts since the last wire response, modulo the threshold |
| LivenessRuns.ShutExactly | src/sip-dialog-controller.cpp:849-857 | A connection is shut at exactly every N-th timeout in a row |
| LivenessRuns.SilentIsShut | src/sip-dialog-controller.cpp:826-857 | A connection on which requests only time out, without a response or with a 408 of the stack's own, is shut with the N-th and not before |
| LivenessRuns.WhatStartsAgain | src/sip-dialog-controller.cpp:826-848 | A response off the wire starts the count again; another failure made up by the stack does not |
| LivenessRuns.DisabledNeverShuts | src/sip-dialog-controller.cpp:815-816 | A threshold of 0 shuts nothing |
| Schedules.GapDoubles | src/sip-proxy-controller.cpp:633-645 | After k retransmissions the interval is 2^k T1, for INVITE and for other requests (RFC 3261, section 17.1.1.2) |
| Schedules.AtMostSevenSends | src/sip-proxy-controller.cpp:386-392 | However late timers fire, a branch is sent at most 7 times before 64 T1 (32000 ms) |
| Schedules.SeventhInTime | src/sip-proxy-controller.cpp:386-392 | With timers on time the seventh is sent before, the eighth would come after |
| Schedules.IntervalIsMin | src/sip-dialog.hpp:174-184 | The k-th timer G interval is min(2^k T1, T2), and doubling it stays within 32 bits |
| Schedules.AtMostTenRepeats | src/sip-dialog-controller.cpp:1528-1535 | At most 10 retransmissions of a 200 OK before timer H at 32000 ms (RFC 3261, section 13.3.1.4) |
| Schedules.TenthInTime | src/sip-dialog-controller.cpp:2408-2412 | With timers on time exactly 10 |

## Left out

- The internals of the SIP stack: message reference counts, transaction matching, DNS and transports. Handles handed over by it are new, and a
  send may go any way it can. `nta_incoming_find` gives any irq that no table holds, known or new.
- DialogControllers.DialogController.Respond: applications answer transactions they were told of; `HiddenUpdateMatters` shows what happens otherwise. That dialogs are
  destroyed once no table, timer or queue refers to them stands for shared pointers; a dialog held longer by a request in progress is allowed too.
- The list of reliable responses of an invite in progress, and session timers: no result rests on them.
- OutgoingControllers.OutgoingController.DestroyDialog: dialog objects are keyed by number, with their two outgoing transactions; that a request in progress shares its dialog object is not modelled, nor is cancelling an INVITE on the wire.
- DialogControllers.DialogController.TimeoutBye: the queue that BYE timeouts wait in; a timeout may come at any time while the BYE is registered.
- UAC invites only appear as entries that responses, cancellation and requests act on; forked UAC responses create no second dialog.
- TimerDRuns.ResentExactlyWhileHeld: outgoing transactions are never the same object twice: that one freed while timer D still holds its pointer (`HeldInviteDestroyed`) is confused with a new one at the same address is not modelled.
- ProxyCores.ProxyCore.ProcessResponse: advancing an iterator into a vector that a callback has changed, harmless in practice, is not modelled; nor are full-response reports to the application, call records and statistics.
- ProxyCores.ProxyCore.Begin: a request rejected with 483 for its Max-Forwards, and the exception for an outbound proxy without a destination.
- ProxyTransactions.ClientTransaction.Take: the parser delivers statuses 100 to 699; whether a challenge carries nonce and realm is part of the response.
- ReliableProvisionals.ServerTransaction.ForwardPrack: Record-Route and the outcome of the send.
- PendingRequests.PendingRequestController.Add: the queue is the list that TimerQueue is proved to keep; its mutex makes each call one step.
- RoundRobins.ClientController.WantsRequests: where a registration goes among equal keys is left to the map; any place is allowed. Connected clients are given to each selection.
- The tables that map transactions and dialogs to applications: single insertions and removals.
- TimerQueues.TimerQueue.DoTimer: the re-entry guard `m_in_timer`, the mutex of the locking variant and the callbacks themselves, which the other modules model. The manager that routes a handle to one of several queues by name.
- `findDialogByCallId`, which looks up ids that are never made.
- HTTP routing, JSON actions, Redis, statistics, call records, configuration, TLS, header building, NAT detection and SDP.
