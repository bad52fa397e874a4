# GPUBuffer mapping and the Performance entry buffer, in Dafny

This project models two parts of a browser engine's script component.

**`WebGpuBuffer`** (`gpubuffer.dfy`) is the state machine behind the WebGPU
`GPUBuffer` mapping operations: `mapAsync`, the listener that handles the GPU
process's answer, `getMappedRange`, `unmap`, `destroy`, the label, and drop. A
`GPUBuffer` is a class. Its fields are the five-valued state, the optional
map-info record and the one-slot pending promise. The map-info record holds:

- the mapped bytes;
- the mapped interval;
- the views handed out so far;
- the map mode.

The external pieces are small classes:

- the IPC channel is an append-only log of requests, and on a closed channel every send fails;
- a promise is `Pending`, `Resolved` or `Rejected(kind)`;
- a JS `ArrayBuffer` is a handle with an offset, a length and a `detached` flag;
- the device keeps a log of the validation errors reported to it.

A Rust panic becomes an outcome (`Panicked` or `RangePanicked`) that carries
the panic message and changes nothing. Every panic the model covers happens in
the code before any field is written. The one that does not, a null view in
`getMappedRange`, is listed under "Left out".

**`PerformanceTimeline`** (`performance.dfy`) is the `Performance` interface's
entry buffer. It covers:

- the filter/sort, clear and last-match queries of the entry list;
- the observer registry;
- "queue a PerformanceEntry" with its pending-notification flag;
- the resource-timing counters (a limit that starts at 250, the current size, the pending-full flag and the secondary buffer);
- `mark`, `measure`, `clearMarks`, `clearMeasures`, `clearResourceTimings` and `setResourceTimingBufferSize`.

What the code hands to observers, to the task source and to the event target
is recorded in order in an `events` log. Start times are integers supplied by
the caller.

The model keeps the code's behaviour where it departs from the W3C algorithms:

- `getMappedRange` takes its default size from the size of the whole buffer, not from the mapped interval.
- `getMappedRange` unwraps the map info before it checks the state.
- `getMappedRange` slices the mapped bytes at absolute buffer offsets, so a view past the end of the bytes panics.
- `destroy` on a buffer whose map is pending leaves the promise pending and keeps the map info. A late successful answer then moves the destroyed buffer to `Mapped` (`ScenarioDestroyWhilePending`).
- An error answer empties the promise slot but leaves the state `MappingPending`, so a later `unmap` panics on the empty slot (`ScenarioFailedMapThenUnmap`).
- The overlap test refuses an empty view that lies strictly inside a recorded range (`EmptyViewInsideRecordedRangeIsRefused`).
- `measure` looks a mark up with name `"mark"` and entry type equal to the mark's name. Those two arguments are swapped, so a mark not itself named `"mark"` is not found. The time taken is that of the last entry named `"mark"` whose type is the mark's name, and 0 when there is none, as there usually is none (`MeasureLooksUpMarkWithNameAndTypeSwapped`).
- Clearing removes an entry when it has the given name OR the given type (`ClearRemovesNameOrType`).
- The resource limit test is `current <= limit`, so a limit of 0 still admits one entry.
- The buffer-full event fires only when an entry is already parked in the secondary buffer. Firing it drops that parked entry (`ScenarioResourceBufferOverflow`).
- The loop of `fire_buffer_full_event` runs its body at most once.

## Model

| member | source | states |
|---|---|---|
| WebGpuBuffer.DefaultRangeSize | components/script/dom/gpubuffer.rs:218-225 | with no size given, the range runs from the offset to the end of the whole buffer. An offset at or past that end yields nothing. A given size is used as is |
| WebGpuBuffer.RangeIsValid | components/script/dom/gpubuffer.rs:300-311 | the validity test: state Mapped or MappedAtCreation, offset a multiple of 8, size a multiple of 4, the range inside the mapped interval, and the range passing the overlap test against every recorded range |
| WebGpuBuffer.MappedRangeDecision | components/script/dom/gpubuffer.rs:289-314 | getMappedRange grants a view exactly when all of these hold: a size can be determined, map info exists, the range passes the validity test, and the range ends within the mapped bytes. It refuses with an Operation error exactly when no size can be determined or the validity test fails. A granted view starts at the requested offset. Its length is the given size, or with no size the rest of the whole buffer (offset + length == buffer size). Only a mapped buffer grants one |
| WebGpuBuffer.MapAsyncCheck | components/script/dom/gpubuffer.rs:218-238 | mapAsync proceeds exactly for an Unmapped buffer with mode READ or WRITE and a determinable size. The offset check comes first, whatever the state, and reports nothing to the device. The state check comes next and the mode check last; each of them rejects with Abort and logs its message. The mapped interval is offset..offset+size, or offset..end of buffer |
| WebGpuBuffer.ResponsePanics | components/script/dom/gpubuffer.rs:349-370 | the response handler panics on no response, on a response of another kind, and on bytes when there is no map info to hold them |
| WebGpuBuffer.GPUBuffer.constructor | components/script/dom/gpubuffer.rs:76-96 | a new buffer is Unmapped without map info, or MappedAtCreation with a consistent map-info record. The promise slot is empty and the invariant holds |
| WebGpuBuffer.GPUBuffer.UnmapRequest | components/script/dom/gpubuffer.rs:152-163 | the UnmapBuffer request: buffer and device ids, the mapped bytes, is_map_read exactly when the map mode is READ, the interval's start as offset and its length as size |
| WebGpuBuffer.GPUBuffer.Unmap | components/script/dom/gpubuffer.rs:139-182 | Unmapped or Destroyed: completes, sends nothing, changes nothing, and there is no view to touch. Mapped: sends exactly the UnmapBuffer request built from the current bytes, the read flag (map mode == READ), the interval's start and its length; detaches every view; ends Unmapped with no map info. Pending: rejects the stored promise with Operation and ends Unmapped. Pending with an empty slot: panics and changes nothing |
| WebGpuBuffer.GPUBuffer.Destroy | components/script/dom/gpubuffer.rs:185-206 | always ends Destroyed. A second destroy sends nothing, changes nothing and touches no view. A mapped buffer is unmapped first, then DestroyBuffer is sent. An unmapped or pending buffer only sends DestroyBuffer, and a pending promise stays pending |
| WebGpuBuffer.GPUBuffer.Drop | components/script/dom/gpubuffer.rs:128-134 | dropping has every effect of destroy: the buffer ends Destroyed; a mapped buffer first sends an unmap request carrying its staged bytes and detaches its views; the destroy message is sent unless the buffer was already destroyed, in which case nothing is sent and nothing changes; an unmapped or pending buffer keeps its map info and a pending promise stays pending; label and channel are unchanged |
| WebGpuBuffer.GPUBuffer.MapAsync | components/script/dom/gpubuffer.rs:210-279 | each rejection of MapAsyncCheck rejects the returned promise with its error kind. Each such rejection leaves state, map info, slot and channel unchanged and logs exactly its validation error. A failed send rejects with Operation and changes nothing. Success sends one BufferMapAsync request and sets state MappingPending. Map info then holds empty bytes, the checked interval, no views and the mode, and the slot holds the returned, pending promise |
| WebGpuBuffer.GPUBuffer.GetMappedRange | components/script/dom/gpubuffer.rs:283-334 | a refusal returns an Operation error and a panic returns its message; neither changes the map info. A grant returns a fresh, attached view at the offset with the decided length, and appends exactly that range and that view to the map info. The invariant (views pairwise disjoint and one per range) is kept |
| WebGpuBuffer.GPUBuffer.Label | components/script/dom/gpubuffer.rs:337-339 | the label getter returns the stored label |
| WebGpuBuffer.GPUBuffer.SetLabel | components/script/dom/gpubuffer.rs:337-344 | the label reads back as the value set |
| WebGpuBuffer.GPUBuffer.HandleResponse | components/script/dom/gpubuffer.rs:349-382 | no response, a response of the wrong kind, or bytes with no map info: panics and changes nothing. Bytes: become the mapped bytes; the promise resolves; state becomes Mapped. Error: the promise is rejected with Abort and state and map info stay. Both answers empty the slot and send BufferMapComplete |
| WebGpuBuffer.AppendKeepsPairwiseDisjoint | components/script/dom/gpubuffer.rs:307-310 | appending a range disjoint from every recorded one keeps the recorded ranges pairwise disjoint |
| WebGpuBuffer.RegisteringKeepsRegistryValid | components/script/dom/gpubuffer.rs:300-331 | recording a view over a free part of the mapped interval keeps the registry consistent: one view per range, each over exactly its range, all inside the interval and pairwise disjoint |
| WebGpuBuffer.DisjointMeansNoSharedByte | components/script/dom/gpubuffer.rs:307-310 | for non-empty ranges the overlap test holds exactly when the two ranges share no byte |
| WebGpuBuffer.RegisteredViewsShareNoByte | components/script/dom/gpubuffer.rs:300-331 | two different views recorded in a consistent registry share no byte |
| WebGpuBuffer.EmptyViewInsideRecordedRangeIsRefused | components/script/dom/gpubuffer.rs:307-310 | an empty range strictly inside a recorded range fails the overlap test although it shares no byte with it |
| WebGpuBuffer.ScenarioOverlappingViews | components/script/dom/gpubuffer.rs:283-334 | on a 64-byte buffer mapped at creation, a view of bytes 0..32 is granted, and a view of 16..32 overlapping it is refused with Operation |
| WebGpuBuffer.ScenarioUnmapDetachesView | components/script/dom/gpubuffer.rs:148-171 | a view of the whole buffer, taken with no size given, is 64 bytes long, and unmap detaches it |
| WebGpuBuffer.ScenarioOffsetPastEnd | components/script/dom/gpubuffer.rs:218-227 | mapAsync on a 10-byte buffer at offset 12 with no size rejects with Operation, stays Unmapped and sends nothing |
| WebGpuBuffer.ScenarioFailedMapThenUnmap | components/script/dom/gpubuffer.rs:173-176 | after an error answer the promise is rejected with Abort and the buffer stays MappingPending; unmap then panics |
| WebGpuBuffer.ScenarioDestroyWhilePending | components/script/dom/gpubuffer.rs:185-206 | destroy while mapping leaves the promise pending; a later successful answer resolves it and sets the destroyed buffer to Mapped |
| PerformanceTimeline.Filter | components/script/dom/performance.rs:74-84 | the filter keeps exactly the entries whose name and type match (an absent filter matches all) and never lengthens the list |
| PerformanceTimeline.FilterCounts | components/script/dom/performance.rs:74-84 | each matching entry is kept as many times as the buffer holds it, and no other entry is kept |
| PerformanceTimeline.FilterAppend | components/script/dom/performance.rs:74-84 | the filter keeps buffer order: filtering a concatenation is the concatenation of the filtered parts |
| PerformanceTimeline.FilterNothing | components/script/dom/performance.rs:74-84 | with neither name nor type the filter keeps every entry, in order |
| PerformanceTimeline.InsertByStartTime | components/script/dom/performance.rs:85-89 | one step of the sort: the entry is placed in front of the first entry with a start time at or after its own |
| PerformanceTimeline.SortByStartTime | components/script/dom/performance.rs:85-89 | the stable sort by start time used by sort_by: the head is inserted into the sorted tail |
| PerformanceTimeline.InsertByStartTimeMultiset | components/script/dom/performance.rs:85-89 | inserting into the sorted prefix adds exactly the one entry |
| PerformanceTimeline.InsertByStartTimeNoneBefore | components/script/dom/performance.rs:85-89 | inserting keeps every entry at or after a lower bound on start times |
| PerformanceTimeline.InsertByStartTimeSorted | components/script/dom/performance.rs:85-89 | inserting into a list sorted by start time keeps it sorted |
| PerformanceTimeline.AtTimeCons | components/script/dom/performance.rs:85-89 | the entries at a given start time of x::s are x (if it has that time) followed by those of s |
| PerformanceTimeline.InsertByStartTimeAtTime | components/script/dom/performance.rs:85-89 | insertion puts the new entry before every entry with the same start time; as the sort inserts each head into its sorted tail, that keeps equal-time entries in their original order |
| PerformanceTimeline.InsertByStartTimeCorrect | components/script/dom/performance.rs:85-89 | insertion is a sorted, stable permutation of the entry plus the list |
| PerformanceTimeline.SortByStartTimeCorrect | components/script/dom/performance.rs:85-89 | the sort (sort_by, which is stable) returns a permutation of its input, sorted by start time, with entries of equal start time in their original order |
| PerformanceTimeline.GetEntriesByNameAndType | components/script/dom/performance.rs:69-91 | the result is sorted by start time and holds exactly the matching entries; at every start time it lists the matching entries in buffer order |
| PerformanceTimeline.GetEntriesIsAPermutationOfTheMatches | components/script/dom/performance.rs:69-91 | the result is a permutation of the filtered entries, so it holds each matching entry exactly as many times as the buffer does, and no other entry |
| PerformanceTimeline.AtTimeNonEmpty | components/script/dom/performance.rs:85-89 | every entry of a list appears among the entries at its own start time |
| PerformanceTimeline.NothingAtAnyTimeMeansEmpty | components/script/dom/performance.rs:85-89 | a list with no entry at any start time is empty |
| PerformanceTimeline.SameHeads | components/script/dom/performance.rs:85-89 | two sorted lists with the same entries at every start time begin with the same entry |
| PerformanceTimeline.SameTimesInTails | components/script/dom/performance.rs:85-89 | removing that common first entry keeps the same entries at every start time |
| PerformanceTimeline.SortedWithSameTimesAreEqual | components/script/dom/performance.rs:85-89 | two sorted lists with the same entries at every start time are equal |
| PerformanceTimeline.AtTimeEarlierThanHead | components/script/dom/performance.rs:85-89 | a sorted list has no entry at a time earlier than its first entry's |
| PerformanceTimeline.GetEntriesIsTheStableSort | components/script/dom/performance.rs:69-91 | any sorted list that lists the matching entries in buffer order at every start time is the query's result: the result is uniquely determined |
| PerformanceTimeline.Retained | components/script/dom/performance.rs:93-104 | retaining never lengthens the list |
| PerformanceTimeline.RetainedMembers | components/script/dom/performance.rs:93-104 | exactly the entries with neither the given name nor the given type are retained |
| PerformanceTimeline.RetainedCounts | components/script/dom/performance.rs:93-104 | a retained entry occurs as often as in the buffer; a dropped one not at all |
| PerformanceTimeline.RetainedAppend | components/script/dom/performance.rs:93-104 | retaining preserves order: the retained part of a concatenation is the concatenation of the retained parts |
| PerformanceTimeline.ClearRemovesNameOrType | components/script/dom/performance.rs:98-103 | clearing by name and type drops an entry with the name but another type, and one with the type but another name; only an entry with neither survives |
| PerformanceTimeline.LastMatchIndex | components/script/dom/performance.rs:112-118 | the reverse find returns an index whose entry has the name and type and after which none does, or nothing when no entry matches |
| PerformanceTimeline.GetLastEntryStartTimeWithNameAndType | components/script/dom/performance.rs:106-120 | the start time of the last entry with both the name and the type, or 0 when there is none |
| PerformanceTimeline.MeasureLooksUpMarkWithNameAndTypeSwapped | components/script/dom/performance.rs:492-507 | with measure's argument order a recorded mark is not found (its time reads 0); with the order the parameters declare it would be |
| PerformanceTimeline.MarkTime | components/script/dom/performance.rs:492-507 | the time measure() takes from an optional mark: the last-match lookup with name "mark" and the mark's name as type, or the fallback (now for the end, 0 for the start) when no mark is given |
| PerformanceTimeline.FindObserver | components/script/dom/performance.rs:193-196 | the position of the first record of the observer, or nothing when it has none |
| PerformanceTimeline.WithEntryTypes | components/script/dom/performance.rs:188-204 | add_multiple_type_observer replaces the observer's record (same length) or appends one (length + 1). Afterwards a record with exactly the given types exists, other observers' records are unchanged and no duplicate observer appears |
| PerformanceTimeline.WithEntryType | components/script/dom/performance.rs:228-243 | add_single_type_observer adds the type to the observer's record only when it is absent (the registry is unchanged iff it is present) and otherwise changes only that record. An unknown observer gets a new record with just that type, and no duplicate observer appears |
| PerformanceTimeline.WithoutObserver | components/script/dom/performance.rs:247-255 | remove_observer drops the first record of the observer and keeps every other record in its order (like Vec::remove), and is a no-op for an absent one. With distinct observers, afterwards no record of it is left and every other record is kept |
| PerformanceTimeline.BufferedDelivery | components/script/dom/performance.rs:212-227 | a buffered registration appends, when there are any, exactly the buffered entries of the type, sorted, to that observer. It queues a notification task exactly when none is pending |
| PerformanceTimeline.QueuedToObservers | components/script/dom/performance.rs:275-282 | queue_entry hands the entry to the interested records one by one, in registry order, so there is at most one event per record |
| PerformanceTimeline.QueuedToObserversMembers | components/script/dom/performance.rs:275-282 | every observer interested in the entry's type is handed the entry, and nothing is handed to anyone else |
| PerformanceTimeline.QueuedToObserversAppend | components/script/dom/performance.rs:275-282 | the registry is walked in order: the events for a concatenation of records are those of the first part followed by those of the second |
| PerformanceTimeline.QueuedToOneObserver | components/script/dom/performance.rs:275-282 | one record gets the entry exactly once when it observes the entry's type, and nothing otherwise |
| PerformanceTimeline.Notifications | components/script/dom/performance.rs:327-331 | one notification per registered observer, in registry order |
| PerformanceTimeline.PerformanceEntryList.constructor | components/script/dom/performance.rs:65-67 | the list holds the given entries |
| PerformanceTimeline.PerformanceEntryList.ClearEntriesByNameAndType | components/script/dom/performance.rs:93-104 | the list becomes the retained entries in their original order: exactly those with neither the name nor the type |
| PerformanceTimeline.Performance.constructor | components/script/dom/performance.rs:155-167 | a new Performance has an empty buffer, no observers, no pending task, limit 250, size 0, no pending full event and an empty secondary buffer |
| PerformanceTimeline.Performance.ClearAndDisablePerformanceEntryBuffer | components/script/dom/performance.rs:179-183 | the buffer is emptied and the limit set to 0 |
| PerformanceTimeline.Performance.AddMultipleTypeObserver | components/script/dom/performance.rs:188-204 | the registry becomes WithEntryTypes of the old one and stays free of duplicates |
| PerformanceTimeline.Performance.AddSingleTypeObserver | components/script/dom/performance.rs:206-244 | when buffered, the buffered delivery is emitted and a task is pending afterwards; otherwise no event is emitted and the flag is unchanged. The registry becomes WithEntryType of the old one |
| PerformanceTimeline.Performance.DeliverBufferedEntries | components/script/dom/performance.rs:212-227 | emits BufferedDelivery and leaves a notification task pending |
| PerformanceTimeline.Performance.RemoveObserver | components/script/dom/performance.rs:247-255 | the registry becomes WithoutObserver of the old one |
| PerformanceTimeline.Performance.QueueEntry | components/script/dom/performance.rs:265-306 | a resource entry refused by ShouldQueueResourceEntry is not added and yields None. Any other entry is handed to its observers and appended at the end; it sets the pending flag. The result is the new entry's index exactly when no task was pending before, else None. Non-resource entries leave the resource counters untouched |
| PerformanceTimeline.Performance.Admits | components/script/dom/performance.rs:267 | queue_entry keeps every entry that is not a resource entry, and a resource entry exactly when no full event is pending and the buffer can take it |
| PerformanceTimeline.Performance.HandToObservers | components/script/dom/performance.rs:275-282 | emits QueuedToObservers for the entry |
| PerformanceTimeline.Performance.NotifyObservers | components/script/dom/performance.rs:312-332 | clears the pending flag and notifies every observer in order |
| PerformanceTimeline.Performance.CanAddResourceTimingEntry | components/script/dom/performance.rs:338-341 | the buffer can take a resource entry while the current size is at most the limit (`<=`, so one entry more than the limit is admitted) |
| PerformanceTimeline.Performance.CopySecondaryResourceTimingBuffer | components/script/dom/performance.rs:342-354 | while the full event is pending the loop only rotates the secondary buffer (same entries, same length). When the limit is already exceeded it changes nothing |
| PerformanceTimeline.Performance.FireBufferFullEvent | components/script/dom/performance.rs:357-373 | always ends with the pending-full flag false and the secondary buffer empty. The event is fired exactly when the secondary buffer was non-empty. Buffer, counters and observers are unchanged |
| PerformanceTimeline.Performance.ShouldQueueResourceEntry | components/script/dom/performance.rs:376-397 | returns true exactly when no full event is pending and size <= limit; then the size grows by 1. Otherwise the entry ends at the back of the secondary buffer. A full event first fires, which empties that buffer, when none was pending |
| PerformanceTimeline.Performance.Mark | components/script/dom/performance.rs:462-476 | in a window a timing attribute name is refused with a Syntax error and nothing is queued. Otherwise a mark with the given time and duration 0 is queued as QueueEntry states. The observers, the resource limit, the pending-full flag, the current size and the secondary buffer are unchanged |
| PerformanceTimeline.Performance.Measure | components/script/dom/performance.rs:486-523 | queues a measure whose end is the end mark's looked-up time (or now) and whose start is the start mark's (or 0), both looked up with the swapped arguments; duration = end - start. The observers, the resource limit, the pending-full flag, the current size and the secondary buffer are unchanged |
| PerformanceTimeline.Performance.ClearMarks | components/script/dom/performance.rs:479-483 | the buffer keeps the entries that are not marks and do not have the given name; no mark is left |
| PerformanceTimeline.Performance.ClearMeasures | components/script/dom/performance.rs:526-530 | the buffer keeps the entries that are not measures and do not have the given name; no measure is left |
| PerformanceTimeline.Performance.ClearResourceTimings | components/script/dom/performance.rs:532-537 | every resource entry is removed, the others kept in order, and the current size is 0 |
| PerformanceTimeline.Performance.UpdateEntry | components/script/dom/performance.rs:399-403 | replaces the entry at the index when it exists, and otherwise changes nothing |
| PerformanceTimeline.Performance.GetEntries | components/script/dom/performance.rs:437-441 | every buffered entry, as often as buffered, sorted by start time |
| PerformanceTimeline.Performance.GetEntriesByType | components/script/dom/performance.rs:444-448 | exactly the entries of the type, sorted by start time |
| PerformanceTimeline.Performance.GetEntriesByName | components/script/dom/performance.rs:451-459 | exactly the entries with the name (and the type, when given), sorted by start time |
| PerformanceTimeline.Performance.SetResourceTimingBufferSize | components/script/dom/performance.rs:540-543 | sets only the limit |
| PerformanceTimeline.ScenarioResourceBufferOverflow | components/script/dom/performance.rs:338-397 | with limit 0, the first of three resource entries is admitted and the second is parked. The third fires the buffer-full event, drops the second and is parked itself |

## Left out

- WebGpuBuffer.GPUBuffer.GetMappedRange: the model does not cover `NewExternalArrayBuffer` returning null (for instance a length above the engine's ArrayBuffer maximum). The code panics on that null at components/script/dom/gpubuffer.rs:333, after it has already recorded the range and the null view (330-331), so a later unmap would try to detach a null view. The model always grants a view.
- Clocks: `now()` and `reduce_timing_resolution` (components/script/dom/performance.rs:334-336, 554-562) are not modelled; times are parameters.
- Start times are integers, not `f64`. The NaN case of the sort comparison (`partial_cmp` falling back to `Equal`) therefore does not arise.
- `Timing`, `Navigation`, `Now` and `TimeOrigin` (components/script/dom/performance.rs:409-434) are not part of this model; they construct other interface objects or read the clock.
- PerformanceTimeline.Performance.CopySecondaryResourceTimingBuffer: the loop is bounded by a `fuel` parameter. With a handler that raises the limit while the full event is pending, the loop never ends; the bound leaves that divergence unmodelled.
- PerformanceTimeline.Performance.FireBufferFullEvent: the `resourcetimingbufferfull` event handler is taken to change nothing. Script that changes the limit or queues entries from the handler is not modelled. Under that handler the source's `while` runs its body at most once, so it is written as an `if`.
- Observer callbacks, task-source queueing and `fire_event` are recorded as `Event`s rather than run.
- Entries are values. The identity of `DomRoot<PerformanceEntry>` objects (two roots to one object) is not modelled.
- WebGpuBuffer.GPUBuffer.Drop: the error log on a failed destroy is left out because destroy never fails.
- Writing through a view, `IpcSharedMemory`, the foreign `NewExternalArrayBuffer`/`DetachArrayBuffer` calls, the `Rc` reference counts and `free_func` (components/script/dom/gpubuffer.rs:152-170, 316-327) become the `ArrayBuffer` handle and the request log.
- Offsets and sizes are unbounded naturals. The WebIDL arguments are `[EnforceRange] unsigned long long`, below 2^53, so the `u64` sums in the code cannot wrap.
- Reflection, garbage-collection tracing and the WebIDL bindings are left out.
