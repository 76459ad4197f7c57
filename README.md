# Virtual wires, modelled in Dafny

This project models the virtual-wire core of the emulator:

- `hw/core/wire.c`, with the API it documents in `include/hw/wire.h`;
- the growable vector it stores its lists in (`util/vector.c` and the macros of `include/qemu/vector.h`).

A **wire** caches one resolved level. **Wire drivers** attach to wires and drive them at one of eight strengths, either digitally (true or false) or with a signed analogue value. On each wire the strongest driver wins. Two equally strongest drivers that disagree put the wire in conflict. A wire whose observable level changes calls its listeners, the most recently registered first. A **multi-listener** watches up to 32 wires as one bit mask and reports only what its user can observe. A **batch drive** (`qemu_wire_multi_drive`) works in three phases:

1. copy the new drives in and mark the wires they reach;
2. re-resolve each marked wire once;
3. notify the changed wires.

Files and modules:

- `levels.dfy` (`Optional`, `Levels`): strengths, modes, drives.
- `arbitration.dfy` (`Arbitration`):
  - a declarative reference resolution (`Strongest`, `Winner`, `Conflicted`, `Resolve`);
  - the backward scan of `wire_update`, proved equal to it;
  - the change rule, proved equal to "the observable view differs".
- `last_match.dfy` (`LastMatch`): the backward search-and-delete used by detach and unlisten.
- `wire.dfy` (`Wire`): the arena class `Circuit`, holding every wire and driver record, with one method per operation.
  - Its invariant `Valid()` says that ids are in range, that attachment lists are symmetric (a driver appears on a wire as often as the wire on the driver), and that no change is pending between operations.
  - `Coherent()` says that every wire's cached level is what its drivers resolve to.
  - Listener calls are recorded in a ghost `log` of events instead of being executed.
- `sensing.dfy` (`Sensing`): the read functions, including the mask and weakest strength of `qemu_wire_multi_sense`.
- `multi_wire.dfy` (`MultiWire`): the multi-listener, its change rule and its listen/unlisten loops.
- `vector.dfy` (`Vectors`): `struct vector` as a class over an `array`, with grow, delete, insert, append and pop.
- `wire_scenarios.dfy`, `multi_scenarios.dfy`, `vector_scenarios.dfy`: the runs of `tests/test-wire.c` and `tests/test-vector.c`, with the values their assertions expect, plus the two findings below.

## Model

| member | source | states |
|---|---|---|
| Levels.DigitalDrive | hw/core/wire.c:329-338 | a digital drive has value 1 for true and 0 for false, in digital mode at the given strength |
| Arbitration.Strongest | hw/core/wire.c:199-218 | the strongest strength among the drives bounds every drive and is attained by one, or is Hi-Z when there is none |
| Arbitration.Winner | include/hw/wire.h:21-22 | the winner is a drive of the strongest strength, with no equally strong drive attached after it (the first one the backward scan meets) |
| Arbitration.Resolve | include/hw/wire.h:21-25 | the resolved level has the strongest strength; it is Hi-Z exactly when every drive is Hi-Z, and is then undriven and not in conflict; otherwise it is one of the drives |
| Arbitration.ConflictedStep | hw/core/wire.c:201-217 | one more drive met by the scan: a weaker or Hi-Z one changes nothing, an equal one adds its disagreement, a stronger one clears the conflict |
| Arbitration.ConflictedStepWeaker | hw/core/wire.c:201-202 | a Hi-Z or weaker drive in front leaves the conflict flag as it was |
| Arbitration.ConflictedStepTie | hw/core/wire.c:203-210 | an equally strong drive in front makes the wire conflicted exactly when it was already, or when it disagrees with the winner |
| Arbitration.Arbitrate | hw/core/wire.c:188-218 | the backward scan's best level and conflict flag are exactly the reference resolution |
| Arbitration.StrictlyStrongerWins | include/hw/wire.h:21-22 | a drive strictly stronger than all others wins without conflict, wherever it is attached |
| Arbitration.ConflictIffTwoDisagree | include/hw/wire.h:24-25 | a wire is in conflict exactly when two drives of the strongest (non Hi-Z) strength disagree in mode or value |
| Arbitration.AppendHiZ | hw/core/wire.c:201-202 | a Hi-Z driver attached last changes neither the strongest strength nor the resolution |
| Arbitration.WinnerAppendHiZ | hw/core/wire.c:201-202 | a Hi-Z driver attached last does not change the winner |
| Arbitration.ObservablyChanged | hw/core/wire.c:220-229 | the change rule fires exactly when the observable view (conflict flag, and mode and value unless Hi-Z) differs |
| LastMatch.LastIndex | hw/core/wire.c:99-106 | the index found holds the element, and no later index does |
| LastMatch.RemoveAt | util/vector.c:43-54 | deleting index i keeps the elements before i, shifts the later ones left by one, and removes exactly one copy of the deleted element |
| LastMatch.RemoveLast | hw/core/wire.c:298-311 | removing the last match shortens the list by one when the element occurs, and leaves the list unchanged when it does not |
| LastMatch.RemoveLastMultiset | hw/core/wire.c:298-311 | removing the last match takes exactly one copy out of the multiset, if there is one |
| LastMatch.FindLast | hw/core/wire.c:100-106 | the backward loop finds the element exactly when it occurs, at its last index |
| LastMatch.RemoveLastAppended | hw/core/wire.c:82-107 | unlisten after listen (and detach after attach) of the same entry restores the list |
| LastMatch.RemoveLastOfLast | hw/core/wire.c:56-63 | removing the last occurrence of the final element drops the final element (the `VECTOR_LAST` loops of `wire_clear`) |
| Wire.DrivesOf | hw/core/wire.c:199-200 | the drives of the attached drivers, in attachment order |
| Wire.CallsAt | hw/core/wire.c:121-126 | a dispatch calls each listener once, the most recently registered first |
| Wire.CallsExactly | hw/core/wire.c:123-126 | every dispatch event is a call of an existing listener under its own index, there are no repeats, and every listener is called |
| Wire.SymmetricAfterAttach | hw/core/wire.c:286-287 | attaching appends to both lists, and they stay symmetric |
| Wire.SymmetricAfterDetach | hw/core/wire.c:298-311 | detaching removes one entry from each list, when there is one, and they stay symmetric |
| Wire.CountAfterRemove | hw/core/wire.c:298-311 | after removing the last x, x occurs once less and every other value as often as before |
| Wire.AttachedBothWays | hw/core/wire.c:279-315 | a driver is on a wire's attachment list exactly when the wire is on the driver's list |
| Wire.AttachKeeps | hw/core/wire.c:279-289 | attach keeps the invariant |
| Wire.AllBelowRemoveLast | hw/core/wire.c:298-311 | a deletion keeps the remaining ids in range |
| Wire.AttachHiZCoherentAt | hw/core/wire.c:279-289 | attaching a Hi-Z driver keeps the wire's cached level what its drivers resolve to |
| Wire.AttachHiZCoherent | hw/core/wire.c:260-269 | attaching a Hi-Z driver, as `qemu_allocate_wiredriver` does, keeps every wire coherent without a re-resolution |
| Wire.UnlinkedWires | hw/core/wire.c:305-311 | the backward deletion on a wire's attachments keeps its listeners and every other wire |
| Wire.UnlinkedDrivers | hw/core/wire.c:298-303 | the backward deletion on a driver's wire list keeps every drive |
| Wire.DetachKeeps | hw/core/wire.c:291-311 | the two deletions of detach keep the invariant |
| Wire.DetachOutcome | hw/core/wire.c:291-315 | after detach's deletions and re-resolution, the invariant holds and a coherent arena stays coherent |
| Wire.DetachCoherent | hw/core/wire.c:291-313 | re-resolving the wire after detach restores coherence |
| Wire.CoherentOthers | hw/core/wire.c:186-235 | wires whose attachments and cached levels are untouched stay coherent when no drive changes |
| Wire.ListsFrame | hw/core/wire.c:51-160 | range and symmetry depend only on the attachment and wire lists |
| Wire.UnlinkedDriversKept | hw/core/wire.c:298-303 | a deletion on driver d changes only how often d lists the wire |
| Wire.UnlinkedWiresKept | hw/core/wire.c:305-311 | a wire that only loses one listing of d keeps everything else |
| Wire.UnlinkedLastTrimmed | hw/core/wire.c:157-159 | detaching the wire a driver lists last drops the last entry of its list |
| Wire.LastWireDetached | hw/core/wire.c:153-160 | one round of `wiredriver_clear` trims the driver's list and changes the wires only in how often they list the driver |
| Wire.DriverUnlinked | hw/core/wire.c:153-160 | a driver that lists no wire is attached to none |
| Wire.WireUnlinked | hw/core/wire.c:51-59 | a wire with no attachment is listed by no driver |
| Wire.GrewTrans | hw/core/wire.c:51-59 | logs that grow only with events about a set of wires compose |
| Wire.ResettleKeeps | hw/core/wire.c:186-235 | re-resolving one wire keeps the invariant |
| Wire.ApplyRequest | hw/core/wire.c:359-377 | phase one for one request changes no driver's wire list |
| Wire.ApplyBatch | hw/core/wire.c:358-377 | phase one for a batch changes no driver's wire list |
| Wire.ApplyBatchFlags | hw/core/wire.c:362-372 | a driver left unflagged keeps its record, and a newly flagged driver is named by the batch |
| Wire.LastRequestWins | hw/core/wire.c:358-377 | a driver ends up with the drive of the last request naming it |
| Wire.UnnamedUntouched | hw/core/wire.c:358-377 | a driver no request names keeps its record |
| Wire.MarkedAfterFlag | hw/core/wire.c:373-376 | flagging a driver marks exactly the wires on its list in addition |
| Wire.ResolveStep | hw/core/wire.c:387-390 | re-resolving a marked wire and logging it keeps phase two's progress invariant |
| Wire.ResolveStepStates | hw/core/wire.c:387-390 | the same step keeps the wire states of phase two's invariant |
| Wire.ResolveStepLog | hw/core/wire.c:387-390 | the same step keeps the log part of phase two's invariant |
| Wire.NotifyStep | hw/core/wire.c:401-404 | dispatching a wire with a pending change keeps phase three's progress invariant |
| Wire.BatchEventsCompose | hw/core/wire.c:379-405 | phase two's updates followed by phase three's calls are the events of the batch: one update per marked wire, then the listeners of each changed wire |
| Wire.UnmarkedDrives | hw/core/wire.c:379-392 | an unmarked wire's drivers keep their drives through the batch |
| Wire.BatchKeeps | hw/core/wire.c:351-406 | a batch keeps the invariant and keeps every wire coherent |
| Wire.SettledAfterNotify | hw/core/wire.c:394-405 | phase three only clears the changes phase two left pending |
| Wire.FlaggedAreNamed | hw/core/wire.c:358-377 | after phase one only drivers the batch names are flagged |
| Wire.RepeatsSkipped | hw/core/wire.c:359-365 | a driver that every request naming it asks for the drive it already has keeps its record and is never flagged |
| Wire.SingleRequest | hw/core/wire.c:324-349 | a batch of one request marks exactly the wires of the named driver when its drive changes, and otherwise changes nothing |
| Wire.SingleNoChange | hw/core/wire.c:360-365 | a request naming no driver, or repeating the drive it has, changes nothing and logs nothing |
| Wire.SingleChange | hw/core/wire.c:358-405 | a request that changes a drive re-resolves exactly the wires that driver lists |
| Wire.NoEventsUnmarked | hw/core/wire.c:379-405 | a batch that marks no wire logs nothing |
| Wire.FirstEventMarked | hw/core/wire.c:379-405 | every event of a batch is about a marked wire |
| Wire.RepeatsLeaveWire | hw/core/wire.c:358-405 | a wire whose drivers the batch names only with the drives they have is not marked, keeps its state, and no event of the batch is about it |
| Wire.NewDriverKeeps | hw/core/wire.c:260-264 | a new driver, on no wire, keeps the invariant and coherence |
| Wire.AttachResolvedCoherent | hw/core/wire.c:279-289 | attaching and then re-resolving the wire keeps every wire coherent |
| Wire.DetachedWire | hw/core/wire.c:291-313 | detach leaves the wire with one listing fewer, the same listeners and intrinsic value, and the level its remaining drivers resolve to; every other wire is unchanged |
| Wire.DetachEventsAbout | hw/core/wire.c:313-314 | the events detach logs are all about the wire detached from |
| Wire.Circuit.Wire | hw/core/wire.c:408-413 | a NULL wire pointer has no record, and every other pointer has one |
| Wire.Circuit.AllocateWire | hw/core/wire.c:241-250 | a new undriven wire with the default intrinsic value is appended; nothing else changes |
| Wire.Circuit.WireUpdate | hw/core/wire.c:186-235 | the wire is re-resolved from its drivers, and a change is flagged by the change rule |
| Wire.Circuit.CallListeners | hw/core/wire.c:110-129 | every listener is called, the last registered first, and the in-callback flag is clear afterwards |
| Wire.Circuit.NotifyIfChanged | hw/core/wire.c:131-137 | a pending change is cleared and dispatched; with no change pending nothing happens |
| Wire.Circuit.Attach | hw/core/wire.c:279-289 | the driver is appended to the wire's list and the wire to the driver's list, without re-resolving; a NULL wire changes nothing; the invariant holds, and coherence holds when the driver is Hi-Z |
| Wire.Circuit.Detach | hw/core/wire.c:291-315 | the last listing each way is removed and the wire is re-resolved; its listeners are called when its view changed; a NULL wire changes nothing; coherence is kept |
| Wire.Circuit.UpdateAndNotify | hw/core/wire.c:313-314 | re-resolve, then dispatch the wire's listeners exactly when its view changed |
| Wire.Circuit.Unlink | hw/core/wire.c:298-311 | the two backward deletions of detach |
| Wire.Circuit.Listen | hw/core/wire.c:82-89 | the listener is appended to a non-NULL wire's list; nothing else changes |
| Wire.Circuit.Unlisten | hw/core/wire.c:91-107 | the most recently registered matching listener is removed from a non-NULL wire; nothing else changes |
| Wire.Circuit.SetIntrinsic | hw/core/wire.c:317-322 | only the non-NULL wire's intrinsic value changes |
| Wire.Circuit.MarkWires | hw/core/wire.c:373-376 | every wire on the driver's list is marked, and no other wire changes |
| Wire.Circuit.ApplyPhase | hw/core/wire.c:358-377 | the drivers become the phase-one result, and each wire is marked exactly when a flagged driver lists it |
| Wire.Circuit.ResolveWiresOf | hw/core/wire.c:385-391 | every wire of the driver is left unmarked, and phase two's progress invariant is kept |
| Wire.Circuit.ResolveOne | hw/core/wire.c:387-390 | a marked wire is re-resolved and unmarked, and every other wire is unchanged |
| Wire.Circuit.ResolvePhase | hw/core/wire.c:379-392 | each marked wire is re-resolved exactly once, and the log grows by those updates |
| Wire.Circuit.NotifyOne | hw/core/wire.c:402-403 | a wire with a pending change is dispatched, and every other wire is unchanged |
| Wire.Circuit.NotifyWiresOf | hw/core/wire.c:401-404 | every wire of the driver is left with no change pending |
| Wire.Circuit.NotifyPhase | hw/core/wire.c:394-405 | the driver flags are cleared, every pending change is dispatched once, and nothing else changes |
| Wire.Circuit.MultiDrive | hw/core/wire.c:351-406 | the new drives are in place; every marked wire is re-resolved; the log grows by the batch's events; the invariant and coherence are kept |
| Wire.Circuit.ResolveAndNotify | hw/core/wire.c:379-405 | phases two and three together settle the wires and log the batch's events |
| Wire.Circuit.DriveOne | hw/core/wire.c:329-338 | a single drive that changes the driver re-resolves exactly that driver's wires and logs the batch's events; otherwise nothing changes |
| Wire.Circuit.DriveHiZ | hw/core/wire.c:324-327 | the driver drives Hi-Z with digital false, and no other driver changes. If the drive is the same or the driver is NULL, nothing changes and no listener is called. Otherwise only that driver's drive changes, exactly its wires are re-resolved, the old log is kept as a prefix, and the new events are the updates and listener calls of those wires |
| Wire.Circuit.DriveDigital | hw/core/wire.c:329-338 | the driver drives the digital value at the strength, and no other driver changes. If the drive is the same or the driver is NULL, nothing changes and no listener is called. Otherwise only that driver's drive changes, exactly its wires are re-resolved, the old log is kept as a prefix, and the new events are the updates and listener calls of those wires |
| Wire.Circuit.DriveAnalogue | hw/core/wire.c:340-349 | the driver drives the analogue value at the strength, and no other driver changes. If the drive is the same or the driver is NULL, nothing changes and no listener is called. Otherwise only that driver's drive changes, exactly its wires are re-resolved, the old log is kept as a prefix, and the new events are the updates and listener calls of those wires |
| Wire.Circuit.AllocateWireDriver | hw/core/wire.c:260-269 | a new Hi-Z driver is appended, attached to the wire unless it is NULL; coherence is kept |
| Wire.Circuit.AttachResolved | hw/core/wire.c:279-289 | corrected attach: the lists grow as before, and the wire is re-resolved, so coherence is kept |
| Wire.Circuit.DetachStep | hw/core/wire.c:291-315 | detach of a non-NULL wire: one listing fewer each way, the wire re-resolved, other wires unchanged |
| Wire.Circuit.DetachLastDriver | hw/core/wire.c:56-59 | one round of `wire_clear` drops the last attached driver and re-resolves the wire |
| Wire.Circuit.DetachAll | hw/core/wire.c:56-59 | the first loop of `wire_clear` detaches every driver; the wire is then undriven, and only events about it are logged |
| Wire.Circuit.UnlistenAll | hw/core/wire.c:60-63 | the second loop of `wire_clear` leaves no listener and changes nothing else |
| Wire.Circuit.WireClear | hw/core/wire.c:51-64 | no driver is attached and no listener is left; no driver lists the wire; other wires are unchanged |
| Wire.Circuit.DetachLastWire | hw/core/wire.c:157-159 | one round of `wiredriver_clear` drops the driver's last wire and detaches it from it |
| Wire.Circuit.WiredriverClear | hw/core/wire.c:153-160 | the driver lists no wire and is attached to none; other drivers are unchanged; events are only about its former wires |
| Wire.Circuit.FreeWire | hw/core/wire.c:252-258 | a non-NULL wire is cleared: nothing attached, no listener, listed by no driver, its intrinsic value kept and its level undriven if it had drivers; every other wire and every drive unchanged; only events about it logged; NULL changes nothing |
| Wire.Circuit.FreeWireDriver | hw/core/wire.c:271-277 | a non-NULL driver is cleared: it lists no wire and is attached to none, keeps its drive, the other drivers are unchanged, wires change only in how often they list it, and only events about its former wires are logged; NULL changes nothing |
| Sensing.HalfTowardZero | hw/core/wire.c:416 | C's `intrinsic / 2`, truncated toward zero |
| Sensing.SenseStrength | hw/core/wire.c:471-474 | the cached strength, or Hi-Z for a NULL wire |
| Sensing.SenseConflicted | hw/core/wire.c:476-479 | the cached conflict flag, or false for a NULL wire |
| Sensing.SenseReadsDrivers | include/hw/wire.h:191-205 | on a coherent circuit, the sensed strength is the strongest attached drive's (Hi-Z when none), and the wire reads as conflicted exactly when two strongest drives disagree |
| Sensing.Sense | hw/core/wire.c:408-427 | digital reads its value; analogue reads true exactly at or above half the intrinsic value (with C's rounding); NULL reads false at Hi-Z |
| Sensing.SenseA | hw/core/wire.c:429-448 | analogue reads its value; digital reads the intrinsic value when true and 0 when false; NULL reads 0 at Hi-Z |
| Sensing.UndrivenReadsLow | include/hw/wire.h:70 | an undriven wire reads false, 0, Hi-Z and no conflict |
| Sensing.DigitalThroughAnalogue | include/hw/wire.h:33-36 | a digital level read as analogue and driven back reads the same digital value |
| Sensing.AnalogueMonotone | include/hw/wire.h:30-32 | a higher analogue level never reads lower |
| Sensing.BitsDisjoint | hw/core/wire.c:460-462 | two wires' mask bits overlap exactly when they are the same wire |
| Sensing.SenseBitsStep | hw/core/wire.c:460-462 | reading one more wire adds its own bit to the mask |
| Sensing.MaskStep | hw/core/wire.c:461-462 | the loop's step extends the mask by the current wire |
| Sensing.MaskStepSet | hw/core/wire.c:461-462 | a wire reading true sets its bit |
| Sensing.MaskStepClear | hw/core/wire.c:461-462 | a wire reading false leaves the mask unchanged |
| Sensing.SenseBitsAt | hw/core/wire.c:450-469 | bit j of the mask is set exactly when wire j exists and reads true |
| Sensing.Weakest | hw/core/wire.c:463-464 | the weakest strength is at most every wire's strength and is one of them; Hi-Z when no wire is read |
| Sensing.WeakestHiZ | hw/core/wire.c:463-464 | the weakest is Hi-Z exactly when no wire is read or some wire is Hi-Z |
| Sensing.Clamp32 | hw/core/wire.c:458-459 | at most 32 wires are read |
| Sensing.MultiSense | hw/core/wire.c:450-469 | the loop returns the mask and the weakest strength of the first min(n, 32) wires |
| MultiWire.ScanConflict | hw/core/wire.c:501-503 | the backward scan finds a conflict exactly when some wire read is in conflict |
| MultiWire.ChangedIffViewDiffers | hw/core/wire.c:508-511 | up to 32 wires, the handler's rule fires exactly when the observable view differs; beyond 32 it also fires on every call while driven |
| MultiWire.SuppressedWhileInConflict | hw/core/wire.c:504-505 | while the wires stay in conflict the handler is silent and nothing is recorded |
| MultiWire.FiresOnObservedChange | hw/core/wire.c:507-517 | up to 32 wires, a report is made exactly when the view differs, and the memory then holds the new view |
| MultiWire.OverwideFiresWhileDriven | hw/core/wire.c:511 | with more than 32 wires, every call while driven and not still in conflict reports |
| MultiWire.ReportMeansReadings | include/hw/wire.h:226-237 | a report carries the wire count, a mask whose bit j is wire j's reading, and a weakest strength bounding every wire read |
| MultiWire.FreshMeansReadings | hw/core/wire.c:507 | the computed mask and weakest strength agree with each wire's reading |
| MultiWire.StepSettles | hw/core/wire.c:508-511 | up to 32 wires, a second call on unchanged wires never reports |
| MultiWire.SameViewSameStep | hw/core/wire.c:508-511 | the stored mask is never looked at while Hi-Z: memories with the same view behave alike |
| MultiWire.InitialValueUnobserved | hw/core/wire.c:529-535 | whatever the allocator left in the mask never changes a report |
| MultiWire.ListenAllAt | hw/core/wire.c:537-540 | after the listen loop each wire has gained one copy of the listener per pointer to it |
| MultiWire.UnlistenAllAt | hw/core/wire.c:551-553 | after the unlisten loop each wire has lost its last copy once per pointer to it |
| MultiWire.RemoveRepeated | hw/core/wire.c:551-553 | k removals from n copies at the end leave n - k copies |
| MultiWire.ListenRoundTrip | hw/core/wire.c:520-555 | multi-unlisten after multi-listen restores every wire's listeners |
| MultiWire.MultiListener.constructor | hw/core/wire.c:529-536 | handler, closure and wires are stored; the weakest strength is Hi-Z, there is no conflict, and the mask is whatever was left |
| MultiWire.MultiListener.Handle | hw/core/wire.c:492-518 | the memory advances by the handler's rule, and a report is recorded exactly when the rule fires |
| MultiWire.ListenEach | hw/core/wire.c:537-540 | the listen loop registers the listener on every wire in order; drivers and log are unchanged |
| MultiWire.UnlistenEach | hw/core/wire.c:551-553 | the unlisten loop unregisters the listener from every wire in order |
| MultiWire.MultiListen | hw/core/wire.c:520-543 | no wires gives NULL and no change; otherwise a fresh token with the given fields and memory, listening on every wire |
| MultiWire.MultiUnlisten | hw/core/wire.c:545-555 | NULL changes nothing; otherwise the token's listener is removed from every wire |
| Vectors.RoundUp | util/vector.c:32 | `(n + 127) & ~127` is a multiple of 128, at least n and less than n + 128 |
| Vectors.InsertAt | include/qemu/vector.h:48-51 | the new element is at i, the elements before i stay, and those from i move one place right |
| Vectors.DeleteInserted | include/qemu/vector.h:43-51 | deleting what was just inserted at i gives back the vector |
| Vectors.InsertAtEnd | include/qemu/vector.h:45-51 | inserting at the length is appending |
| Vectors.Vector.Contents | include/qemu/vector.h:40-42 | the elements are the first len slots |
| Vectors.Vector.constructor | util/vector.c:12-17 | no buffer, no elements |
| Vectors.Vector.Free | util/vector.c:19-23 | the buffer is released and the vector is as `vector_init` leaves it |
| Vectors.Vector.Grow | util/vector.c:26-40 | room for n elements: no change when there is room; otherwise a buffer of n rounded up to 128, keeping the elements, or failure with nothing changed |
| Vectors.Vector.Del | util/vector.c:43-54 | the element at i is removed and the later ones shift left; an index past the end changes nothing |
| Vectors.Vector.Ins | util/vector.c:57-69 | a gap opens at i and i is returned; an index past the end changes nothing |
| Vectors.Vector.Append | include/qemu/vector.h:45-47 | the element is appended, or 0 when growing fails and nothing changes |
| Vectors.Vector.Insert | include/qemu/vector.h:48-51 | corrected insert: the element is placed at i, or 0 when growing fails or i is past the end |
| Vectors.Vector.InsertAsWritten | include/qemu/vector.h:48-51 | the macro as written: it succeeds exactly when there is room or the allocator grants more; an index past the end then reports success, stores the element in that slot of the (possibly grown) buffer and leaves the elements unchanged; on failure nothing changes |
| Vectors.Vector.Pop | include/qemu/vector.h:52 | the last element is returned and uncounted |
| Vectors.Vector.Len | include/qemu/vector.h:42 | the number of elements |
| Vectors.Vector.At | include/qemu/vector.h:40 | the element at i |
| Vectors.Vector.Last | include/qemu/vector.h:41 | the last element, the one at len - 1 |
| VectorScenarios.AppendTwo | tests/test-vector.c:9-19 | appending 8 and then 9 to a new vector gives [8] and then [8, 9], in a 128-slot buffer |
| VectorScenarios.InsertThenDelete | tests/test-vector.c:9-32 | the vector goes through [8], [8, 9], [7, 8, 9] and [7, 9], and the last element is 9. The vector is then handed on |
| VectorScenarios.PopThenInsert | tests/test-vector.c:9-47 | continues the vector the first half leaves: popping gives 9 and then 7, leaving [7] and then [], and inserting 6 at 0 gives [6] |
| VectorScenarios.InsertPastEnd | include/qemu/vector.h:48-51 | on [8, 9], inserting at 5 as written reports success and keeps [8, 9]; the corrected insert refuses |
| VectorScenarios.InsertPastEndFresh | include/qemu/vector.h:48-51 | on a new vector, inserting at 5 as written grows the buffer to 128 slots, stores 7 in slot 5, reports success and leaves the vector empty |
| WireScenarios.Lone | tests/test-wire.c:90-103 | a lone driver wins unless it is Hi-Z, and is never in conflict |
| WireScenarios.Pair | tests/test-wire.c:105-128 | of two drivers of different strengths the stronger wins; two Hi-Z drivers leave the wire undriven |
| WireScenarios.FreeRigged | tests/test-wire.c:130-132 | freeing the drivers and then the wire leaves it with nothing attached and no listener |
| WireScenarios.ReadLone | tests/test-wire.c:92-103 | what a read of a lone digital driver's wire returns |
| WireScenarios.ReadPair | tests/test-wire.c:109-128 | what a read of a two-driver wire returns |
| WireScenarios.RiggedHolds | tests/test-wire.c:83-90 | a wire built by allocation and drives holds what its drivers resolve to |
| WireScenarios.NewWire | tests/test-wire.c:83 | a new circuit with one new wire |
| WireScenarios.AddDriver | tests/test-wire.c:90 | `qemu_allocate_wiredriver(wire)` adds one Hi-Z driver at the end of the wire's list |
| WireScenarios.DriveOn | tests/test-wire.c:92 | a drive of the k-th driver leaves the wire holding the new resolution and logs that drive's batch events |
| WireScenarios.WireDigitalAlone | tests/test-wire.c:83-103 | one driver: the wire reads Hi-Z, then true at the default strength, then Hi-Z |
| WireScenarios.WireDigitalPair | tests/test-wire.c:105-132 | two drivers: true at the default strength twice (a weak 0 loses), then a strong 0 wins |
| WireScenarios.WireDigital | tests/test-wire.c:76-133 | the six readings of test_wire_digital |
| WireScenarios.WireAnalog | tests/test-wire.c:135-157 | 12345 reads back at the default strength, and a Hi-Z drive leaves the wire Hi-Z |
| WireScenarios.Clash | tests/test-wire.c:185-186 | two equally strong drives that disagree put the wire in conflict |
| WireScenarios.WireMixedClash | tests/test-wire.c:168-186 | an analogue 12345 reads 12345 and digital false, and an equal digital 0 brings conflict |
| WireScenarios.WireMixedRelease | tests/test-wire.c:187-205 | after `qemu_wire_drive_z` of the analogue driver the wire reads 0 and false, and after a digital 1 it reads the intrinsic value and true, without conflict |
| WireScenarios.WireMixed | tests/test-wire.c:159-206 | the conflict flags and readings of test_wire_mixed |
| WireScenarios.ListenOn | tests/test-wire.c:215 | registering the recorder on the wire |
| WireScenarios.ThreeDistinct | hw/core/wire.c:123-126 | a dispatch without repeats has no three calls among two events |
| WireScenarios.OneWireEvents | tests/test-wire.c:221-223 | a drive that changes the only wire's view logs one update and one call of its listener |
| WireScenarios.HeardOnce | tests/test-wire.c:221-223 | the log after such a drive grows by exactly that update and that call |
| WireScenarios.DriveHeard | tests/test-wire.c:221-223 | a drive the recorder hears: the wire holds the new resolution and the log grows by one update and one call |
| WireScenarios.ListenSetup | tests/test-wire.c:214-219 | one wire with the recorder and two Hi-Z drivers, and nothing logged ("") |
| WireScenarios.WireListen | tests/test-wire.c:208-224 | the three drives each call the recorder once, and it reads true, false and Hi-Z ("10z") |
| WireScenarios.DrivenApart | hw/core/wire.c:279-289 | a wire and a driver driving 1 that is not yet attached |
| WireScenarios.AttachDrivenAsWritten | hw/core/wire.c:279-289 | attaching that driver as written leaves the wire reading Hi-Z false, though it resolves to the driver's 1 |
| WireScenarios.OnlyDriver | hw/core/wire.c:199-218 | a wire whose only driver drives a digital value holds and reads that value |
| WireScenarios.AttachDrivenResolved | hw/core/wire.c:279-289 | with the corrected attach the wire reads the driver's true at its strength |
| WireScenarios.WireNull | tests/test-wire.c:232-257 | every operation on NULL changes nothing, and multi-listen of no wires returns NULL |
| MultiScenarios.Held | tests/test-wire.c:299-358 | a wire holding what the given drives resolve to |
| MultiScenarios.MultiLevels | tests/test-wire.c:310-351 | what each wire resolves to after each step ("1w <- 1w", "0s <- 1w + 0s", ...) |
| MultiScenarios.MultiChanges | tests/test-wire.c:299-358 | which wires change observably at each step: both at #1, wire 1 at #2, only wire 0 at #3 |
| MultiScenarios.ReadsOf | hw/core/wire.c:450-469 | two readings decide the mask, the weakest strength and the memory a handler call computes |
| MultiScenarios.ReadsAfterFirst | tests/test-wire.c:315-321 | after #1 wire 0 reads a weak 1 and wire 1 a strong 0; mask 1, weakest weak |
| MultiScenarios.ReadsAfterDriveZ | tests/test-wire.c:331-337 | after #2 both wires read a weak 1; mask 3, weakest weak |
| MultiScenarios.ReadsAfterThird | tests/test-wire.c:354-358 | after #3 wire 0 is Hi-Z and wire 1 reads a default 1; mask 2, weakest Hi-Z |
| MultiScenarios.MultiReports | tests/test-wire.c:362 | the multi-handler reports, stays silent, reports and reports ("<01>w<11>w<1z>z") |
| MultiScenarios.WireMulti | tests/test-wire.c:259-362 | the masks 1, 3 and 2; the weakest strengths; the recorders' "1wz" and "01w"; the multi-handler's "<01>w<11>w<1z>z" |

## Left out

- QOM objects, reference counting (`object_ref`, `object_unref`) and `instance_finalize` are not modelled. Wires and drivers are never deallocated: freeing one clears its lists, and its record stays in the arena.
- The IRQ helpers (`hw/core/wire.c:568-603`) are not modelled. They wrap drivers and listeners as QEMU IRQs, which are outside this model.
- Listener handlers are not executed, so a handler that changes the circuit from inside a callback is not modelled. The re-entrancy warning (`fprintf` when `in_callback` is set) is not modelled either: dispatch is recorded as `Called` events.
- The `strength : 3` bit-field: strengths are a subtype of 0..7, so a caller passing a larger `unsigned` (which C truncates) is not modelled.
- `VECTOR_APPEND` failing inside attach and listen is not modelled. The wire core ignores the return value, and the model assumes the allocation succeeds there. The vector itself models failure, through `allocOk`.
- `g_malloc` never returns NULL, so `qemu_wire_multi_listen`'s `if (ml)` branch is always taken.
- `memmove`/`g_realloc` byte copies are modelled as element moves.
- `include/qemu/sha1.h` and `tests/test-sha1.c` are not part of this model.
- Vectors.Vector.Grow: requires `n <= MAX_GROW`, because above that C's unsigned `n + 127` wraps around.
- Vectors.Vector.Append and Vectors.Vector.Insert: require `len < MAX_GROW`, for the same reason.
- Vectors.Vector.InsertAsWritten: an index past the end at or beyond the buffer as grown makes C store outside the buffer (undefined behaviour); the model requires such an index to lie inside the grown buffer and does not model the out-of-bounds store.
- MultiWire.ReportMeansReadings: the header says the handler is only called on four kinds of change. With more than 32 wires the code also reports on every call while driven. The model follows the code (`MultiWire.ChangedIffViewDiffers`, `MultiWire.OverwideFiresWhileDriven`).
- `strength_return` out-pointers are modelled as the second component of the `Sensed` result. A NULL `strength_return` only skips that store.
- WireScenarios.WireListen: the test's closing `qemu_wire_unlisten` and frees are not replayed. The recorder's text is given as what it reads at each call.
- WireScenarios.WireNull: `qemu_wire_attach(NULL, NULL)` and `qemu_wire_detach(NULL, NULL)` are modelled with the allocated driver, since a NULL wire returns before the driver is looked at.
- MultiScenarios.WireMulti: the wire states after each step are built from the resolution of their drivers' drives (`Held`), as `Wire.Circuit.MultiDrive` is proved to leave them, rather than by running `MultiDrive` on a circuit. The test's closing unlisten and frees are not replayed.

## Findings

| source | as written | input that shows it | evidently intended | confidence | as-written member | corrected member |
|---|---|---|---|---|---|---|
| hw/core/wire.c:279-289 | `qemu_wire_attach` appends to both lists but never calls `wire_update`, so the wire keeps its old cached level | a driver driving 1 at PULL while attached to nothing, then attached to a new wire: the wire reads false at Hi-Z, though its only driver drives 1 | re-resolve the wire after attaching (as detach does), so it reads true at PULL | not executed | WireScenarios.AttachDrivenAsWritten | WireScenarios.AttachDrivenResolved |
| include/qemu/vector.h:48-51 | `vector_ins` ignores an index past the end, but `VECTOR_INSERT` still stores `e` at that index and returns 1 | `VECTOR_INSERT(v, 5, 7)` on [8, 9], or on a new vector: reports success, writes slot 5 beyond the elements, and the elements stay as they were (an index beyond the grown buffer writes outside it) | refuse an index past the end (return 0) and store nothing | not executed | Vectors.Vector.InsertAsWritten | Vectors.Vector.Insert |
