# Verified models of the device farm's state machines

The device farm shares phones between many users over a network that may reorder, repeat or lose
messages, and over databases that change while requests are under way. This project models the
parts of it that have to be right in every order of events, and proves that they are:

- **Touch reordering** (`TouchMonitor`, `TouchRing`, `SeqQueue`, `TouchGesture`, `TouchProperties`).
  The class `TouchGesture` is proved against a monitor over unbounded packet indices. Its
  invariant `Valid()` holds after every request, every timer and every owner change.
- **Packet authorization** (`DeviceAccess`, `PacketPolicy`, `PacketGuard`). The bounded fence is
  proved equivalent to an unbounded log of invalidations, and the guard's deliveries are proved to
  have been permitted by a row that was still the whole truth when the packet passed.
- **Bookings, quotas and locks** (`Bookings`, `GroupStore`, `GroupRequests`, `BookingRaces`,
  `GroupLock`). One request after the other books no device twice and keeps the accounts balanced;
  interleaved requests book one twice exactly when two that are about to write clash; the group lock
  excludes.
- **Algorithms**: the expiring set (`TtlSet`), the key format of adb (`AdbKey`), the two stream
  decoders (`MessageStream`, `Mjpeg`), the key character map parser (`KeyMap`), and the queue of
  requests to a phone with the touches that lead to them (`Bridge`, `BridgeTouch`).

Classes of the repository that change their fields are classes here, with the same fields. A timer
is a flag (or the time it goes off) and a method that the environment calls when it fires; a clock
is an argument or a value that never runs backwards; a read of the database is two events, its
start and its answer, with any others in between.

Five things the code does that its callers may not expect, each with the condition under which it does:

- `SeqQueue` with a limit gives a position up, and with it strands a handler, if and only if too few of
  the handlers waiting stand in order behind it (`SkipsNothingIff`, `PushIsExactIff`,
  `SkipStrandsAHandler`). The touch reorderer, which alone builds such queues, sets no limit
  (lib/wire/touch-gesture.ts:223).
- A device named twice in one request is charged twice, and the next device is then refused as
  "over quota" whatever the quota is. A group that was charged exactly before is so afterwards if and
  only if the request names no new device twice (`AddGroupDevices`, `WantedOnceIff`).
- A reschedule checks for conflicts in one step and writes its row in a later one, under the lock of its
  own group only. Two requests that have passed their checks book a device twice if and only if they
  clash (`BookedTwiceIff`), and a write is safe if and only if it clashes with no other request that is
  about to write (`WriteKeepsIff`). Three runs from the empty farm end that way; requests that only add
  and remove devices never do (`AdditionsAreSafe`).
- The message decoder takes some lengths for negative. The messages depend on how the bytes were cut
  into chunks if and only if such a length is followed by more bytes than it cuts off
  (`ChunksDoNotMatterIff`).
- A touch passes outside any gesture if and only if the gesture of its channel was forgotten, for want
  of room, while the touch was the first in its queue (`TouchesAreInGestures`); 129 open gestures make
  that possible (`TouchMayLoseItsGesture`).

## Model

| member | source | states |
|---|---|---|
| TouchRing.RingTestIsExact | lib/wire/touch-gesture.ts:399-402 | the half-ring test tells past from future for every packet at most 50 behind or less than 50 ahead, and recovers its absolute index |
| TouchRing.HalfRingIsSmall | lib/wire/touch-gesture.ts:403-412 | at most 49 different positions lie strictly inside the half ring, so the "buffer is full" branch for a settled gesture cannot be reached |
| TouchGestures.IgnoresExactly | lib/wire/touch-gesture.ts:398-402 | `schedule` ignores exactly the packets that were played or are buffered already |
| TouchGestures.TouchGesture.Schedule | lib/wire/touch-gesture.ts:398-426 | a packet is accepted under its absolute index and plays what it makes playable; the trace only grows; every invariant is kept |
| TouchGestures.TouchGesture.SkipGap | lib/wire/touch-gesture.ts:360-381 | positions are filled one after another only while that is safe, and on return no position is left that could be skipped safely; the loop ends because the farthest buffered index is fixed and the next one moves towards it |
| TouchGestures.SkipHasFollowers | lib/wire/touch-gesture.ts:361-379 | a hole that may be skipped has a buffered packet behind it, so each round shrinks the distance |
| TouchGestures.TouchGesture.Consume | lib/wire/touch-gesture.ts:413-421 | the queue of the current gesture runs the packets from the next index on, each exactly once, until one is missing or the gesture ends |
| TouchGestures.TouchGesture.FinishCurrent | lib/wire/touch-gesture.ts:480-491 | the stop of a gesture forgets and retires it and records the finish with the contacts still held (or the reset); the next gesture of the source is activated with what has come for it |
| TouchGestures.TouchGesture.Promote | lib/wire/touch-gesture.ts:302-307 | with no current gesture the first waiting one is activated, and what has come for it by then is accepted; a waiting gesture always has its timer afterwards; the others keep their packets and watermarks until their own turn |
| TouchGestures.TouchGesture.Activate | lib/wire/touch-gesture.ts:309-334 | activation is recorded with the start's number, and after it every packet that came before and lies within 50 positions of the start is accepted under its absolute index |
| TouchGestures.TouchGesture.Fill | lib/wire/touch-gesture.ts:321-327 | the packets that came before the start are accepted in ring order, none within 50 positions left out |
| TouchGestures.TouchGesture.CheckGap | lib/wire/touch-gesture.ts:336-358 | the gap timer is armed exactly while the current gesture is stalled before buffered packets, for the packet it waits for |
| TouchGestures.TouchGesture.WaitForTail | lib/wire/touch-gesture.ts:285-300 | the head of the waiting gestures, and it alone, has a tail timer |
| TouchGestures.TouchGesture.Start | lib/wire/touch-gesture.ts:237-283 | a start is refused only for the reasons the code names, for want of room only with the report that says so; one that is accepted waits in line with its packets, without raising the watermark, or is activated in place of whatever played and waited, with all that had come for it |
| TouchGestures.TouchGesture.Push | lib/wire/touch-gesture.ts:428-467 | a packet of the current gesture is accepted under its absolute index unless it was before, and what then plays is ended by nothing but its stop; one of a gesture whose turn has not come is kept for it, the first under each number, or the gesture is given up with a report for want of room; a recent unknown gesture gets a buffer; requests that are not heard change nothing |
| TouchGestures.TouchGesture.BufferPending | lib/wire/touch-gesture.ts:447-461 | a packet before its start is kept, ignored as a repetition, or ends the gesture for want of room, exactly as the limits say |
| TouchGestures.TouchGesture.Stop | lib/wire/touch-gesture.ts:469-492 | a stop beyond the window resets at once, and its gesture is gone and reported; any other is pushed, with everything that holds of a push |
| TouchGestures.TouchGesture.Clear | lib/wire/touch-gesture.ts:494-527 | a clear is ignored exactly if it may not be heard, names no source to clear through, or means nothing that is there and is not recent; it is refused with a report only for want of room for its source. Otherwise nothing it means is left, not even by promotion, a current one was reset, the identifier is retired and its source past it; everything else plays on, waits on or has been activated in its turn |
| TouchGestures.TouchGesture.ClearAll | lib/wire/touch-gesture.ts:528-537 | nothing is left, and a current gesture was reset |
| TouchGestures.TouchGesture.SetOwner | lib/wire/touch-gesture.ts:91-106 | everything of the previous owner is gone, after a reset |
| TouchGestures.TouchGesture.StartTimerFires | lib/wire/touch-gesture.ts:227-232 | an unstarted gesture is dropped with its packets and retired, and nothing else changes |
| TouchGestures.TouchGesture.TailTimerFires | lib/wire/touch-gesture.ts:290-298 | the current gesture is reset, retired and reported, and the head of the waiting ones is activated with what has come for it: their number falls, and nobody else loses a packet |
| TouchGestures.TouchGesture.GapTimerFires | lib/wire/touch-gesture.ts:348-356 | the current gesture is reset, retired and reported; the next one of its source is activated with what has come for it, and nobody else loses a packet |
| TouchGestures.TouchGesture.Make | lib/wire/touch-gesture.ts:74-89 | a reorderer is made exactly if every limit is at least 1 |
| TouchGestures.TouchGesture.Retire | lib/wire/touch-gesture.ts:179-188 | a retired identifier is on the list, from which only the oldest may have gone; its source is past it, unless there was no room for that |
| TouchGestures.TouchGesture.RememberSource | lib/wire/touch-gesture.ts:146-177 | the source was heard of just now; its watermark and the time of its last start go up to those of the identifier, or the watermark stays if it is not to advance; no other goes down, except that of an evicted source, whose every seen identifier is too old to start |
| TouchGestures.TouchGesture.MakeRoom | lib/wire/touch-gesture.ts:153-169 | only a source without gestures, idle and expired, is evicted; without one the limit is reported |
| TouchGestures.TouchGesture.IsFresh | lib/wire/touch-gesture.ts:137-144 | recent means younger than the limit and not too far in the future, by a clock that never runs backwards |
| TouchGestures.TouchGesture.SeenStaysOk | lib/wire/touch-gesture.ts:157-163 | eviction keeps every activated identifier either below a watermark or permanently stale |
| TouchGestures.TouchGesture.InsertSorted | lib/wire/touch-gesture.ts:264-266 | the waiting gestures stay in the order of their source |
| TouchGestures.TouchGesture.InsertPlaces | lib/wire/touch-gesture.ts:263-266 | a newcomer goes behind every waiting gesture that is not later than it, and nothing else moves |
| TouchProperties.EveryRunConforms | lib/wire/touch-gesture.ts:57-538 | whatever requests and timers come, the trace under one owner is one the monitor accepts |
| TouchProperties.NeverTwice | lib/wire/touch-gesture.ts:146-188 | while one reservation owns the device no gesture identifier is activated twice |
| TouchProperties.EndsBetween | lib/wire/touch-gesture.ts:274-282 | between two activations there is a reset or a finish |
| TouchProperties.RunsInRingOrder | lib/wire/touch-gesture.ts:309-334 | the packet that runs is the one accepted under start + 1, start + 2, ... of the gesture playing, none left out and none twice |
| TouchProperties.SkipsAreSafe | lib/wire/touch-gesture.ts:360-381 | a position is skipped only when it is the next and missing, with contacts held and at least four packets behind it, the nearest ones, each of which is a commit, a stop, or the move or lift of a held contact |
| TouchProperties.NoSafeHoleIsLeft | lib/wire/touch-gesture.ts:360-381 | between operations no position is left open that could be skipped safely |
| TouchProperties.FinishTellsHeld | lib/wire/touch-gesture.ts:480-491 | a finish reports exactly the contacts (0 to 31) that a packet played has put down and none after it has lifted or reset |
| TouchProperties.HeldMeansLeftDown | lib/wire/touch-gesture.ts:383-396 | a contact is held after some packets if and only if one of them put it down and no later one lifted it or reset the touch |
| TouchProperties.StopIsLast | lib/wire/touch-gesture.ts:478-491 | once the stop of a gesture has run nothing more of it is accepted, skipped or run: all that can come is its end |
| TouchProperties.FinishFollowsStop | lib/wire/touch-gesture.ts:478-491 | a gesture is finished by its own stop and by nothing else |
| TouchProperties.EveryStopHasEnded | lib/wire/touch-gesture.ts:478-491 | between operations no stop is left without the end it calls for |
| TouchProperties.RunsWhatItsOwnerPushed | lib/wire/touch-gesture.ts:91-106 | what runs was pushed since the present owner came, for the gesture that is playing and under the sequence number of its index: nothing pushed under one reservation runs after the owner changes |
| TouchProperties.PlaysLongestPrefix | lib/wire/seqqueue.ts:41-70 | between operations exactly the packets without a gap have been played, and the queue counts exactly the buffered ones, all in the half ring |
| TouchProperties.TooLateIff | lib/wire/touch-gesture.ts:243-252 | a start comes too late exactly if its gesture is retired, playing or waiting, or not later than the latest start of its source |
| TouchProperties.AllowedIff | lib/wire/touch-gesture.ts:124-135 | before the first owner every sound identifier is heard, between owners none, and under an owner only its reservation with a time of issue |
| TouchProperties.HeardIff | lib/wire/touch-gesture.ts:433-441 | a packet without identifier goes to the current gesture only while there is no owner; packets of retired gestures are not heard |
| TouchProperties.EvictableIff | lib/wire/touch-gesture.ts:153-163 | a source may be forgotten exactly if nothing of it is pending or playing, it is idle, and its last start has expired |
| TouchProperties.OutOfWindowIff | lib/wire/touch-gesture.ts:474-478 | a stop ends the current gesture at once exactly if it is 50 or more packets ahead of the next, which the ring cannot tell from one behind |
| SeqQueues.SeqQueue.MaybeConsume | lib/wire/seqqueue.ts:41-70 | the loop runs and leaves what `Drained` says of the ring |
| SeqQueues.SeqQueue.Push | lib/wire/seqqueue.ts:31-39 | a handler beyond the size changes nothing; any other goes into its slot and everything playable runs |
| SeqQueues.SeqQueue.Start | lib/wire/seqqueue.ts:18-24 | consumption opens behind the start's position |
| SeqQueues.SeqQueue.Stop | lib/wire/seqqueue.ts:26-29 | a stopped queue runs nothing and keeps its handlers |
| SeqQueues.RunsInRingOrder | lib/wire/seqqueue.ts:46-59 | the j-th handler to run was stored j positions further round the ring |
| SeqQueues.StopsWhenMissing | lib/wire/seqqueue.ts:46-69 | an open queue stops only when it is empty or the next position is missing |
| SeqQueues.UnlimitedRunsAll | lib/wire/seqqueue.ts:46-69 | without a limit no handler that could run is left behind |
| SeqQueues.SkipsMissCount | lib/wire/seqqueue.ts:60-64 | every handler run and every skip takes one from the count, so every skip strands one handler |
| SeqQueues.SkipsNothingIff | lib/wire/seqqueue.ts:46-69 | nothing is skipped if and only if there is no limit or all but the last few handlers waiting, fewer than the limit, stand in order at the positions next to be run |
| SeqQueues.ExactIff | lib/wire/seqqueue.ts:60-64 | an exact count stays exact if and only if that is so |
| SeqQueues.PushIsExactIff | lib/wire/seqqueue.ts:31-39 | a push into a free slot keeps the count exact if and only if that is so with the new handler |
| SeqQueues.SkipStrandsAHandler | lib/wire/seqqueue.ts:60-64 | a queue of ten with limit two leaves the handler at its own position unplayed |
| DeviceAccess.DevicePacketAccess.CurrentIsExact | lib/units/websocket/device-access.ts:127-130 | a checkpoint is current if and only if neither the device nor everything was invalidated after it, despite all caps |
| DeviceAccess.FenceIsExact | lib/units/websocket/device-access.ts:102-130 | the bounded map and the unbounded log agree, in both directions |
| DeviceAccess.DevicePacketAccess.Invalidate | lib/units/websocket/device-access.ts:102-117 | the device is invalidated after every older checkpoint, and no earlier invalidation is lost |
| DeviceAccess.DevicePacketAccess.InvalidateAll | lib/units/websocket/device-access.ts:118-120 | everything is invalidated after every older checkpoint |
| DeviceAccess.DevicePacketAccess.Remember | lib/units/websocket/device-access.ts:136-145 | a channel is forgotten only together with everything |
| DeviceAccess.DevicePacketAccess.Update | lib/units/websocket/device-access.ts:47-62 | if the device was observed or there is room, every field is as the change says, or as it was observed before if it says nothing of it; otherwise nothing is observed and the socket stays read-only; reads from before are invalid, and a channel it gives leads to the device |
| DeviceAccess.DevicePacketAccess.Snapshot | lib/units/websocket/device-access.ts:68-100 | a row counts as ready if and only if it is, no observation was ever lost, and it agrees with the last word on every field since its device was last settled; then the observation is settled and older reads are invalid |
| DeviceAccess.CaughtUpMeansAgrees | lib/units/websocket/device-access.ts:76-90 | comparing a row with the one observation that is kept is comparing it with the last mention of every field in all notifications, where no text and an empty one are the same |
| DeviceAccess.RecallsMore | lib/units/websocket/device-access.ts:49-58 | merging a change into the observation keeps exactly the last mention of every field |
| DeviceAccess.DevicePacketAccess.ResolveCompletes | lib/units/websocket/device-access.ts:147-188 | a lookup names the serial of the row that has the channel, and a miss is stored only if nothing was invalidated meanwhile |
| DeviceAccess.DevicePacketAccess.MissIsCurrent | lib/units/websocket/device-access.ts:152-156 | a stored miss that counts dates from the present revision, was found for the same groups, and has not run out |
| DeviceAccess.DevicePacketAccess.Joined | lib/units/websocket/device-access.ts:37-40 | a new session begins with an invalidation of its device and a number of its own, and the usage and owner it mentions are observed |
| DeviceAccess.DevicePacketAccess.Released | lib/units/websocket/device-access.ts:42-45 | the session ends with an invalidation, and the next row must show no owner and no usage |
| PacketPolicy.InputsAreAlike | lib/units/websocket/ios-access.ts:165-176 | a row that permits one input permits every input, so inputs may share a cached permission |
| PacketPolicy.PermittedIsReady | lib/units/websocket/ios-access.ts:68-75 | whatever is permitted was permitted by a row that is ready and has the channel |
| PacketPolicy.RefusedIff | lib/units/websocket/ios-access.ts:50-76 | exactly who is refused, told in the fields of the row: whoever the device is out of reach for, on an iPhone whoever is neither owner nor administrator (but for an invitation to a device without owner), and every input to a device without owner or by anybody else |
| PacketPolicy.CommandsByFamily | lib/units/websocket/device-access.ts:4-16 | an event is a device command exactly if what stands before its dot is one of the families, but for the notes |
| PacketPolicy.OnlyTouchesAndStopsNeed | lib/units/websocket/ios-access.ts:159-161 | every touch but the reset, and the stop, needs an open gesture; the start does not |
| PacketGuards.StateStays | lib/units/websocket/ios-access.ts:132-245 | no notification takes back what was proved about reads under way, cached permissions and past deliveries |
| PacketGuards.EvidenceStays | lib/units/websocket/ios-access.ts:220-230 | a ready row stays the whole truth until its device is invalidated |
| PacketGuards.PacketGuard.DeliveriesArePermitted | lib/units/websocket/ios-access.ts:132-281 | every delivered packet is the one submitted under its number, and was permitted by a row read after a checkpoint for the groups the user had at the delivery; nothing touched the device or those groups between checkpoint and delivery, and no observation of the device was open |
| PacketGuards.PacketGuard.UnguardedAreHarmless | lib/units/websocket/ios-access.ts:287-294 | only packets that need no permission pass without one, and they pass as they were submitted |
| PacketGuards.PacketGuard.GesturesKeepTheirIdentity | lib/units/websocket/ios-access.ts:247-250 | the inputs of one gesture all went to one channel under one identity |
| PacketGuards.PacketGuard.StopEndsItsGesture | lib/units/websocket/ios-access.ts:276-278 | in every run, nothing passes under the number of a gesture after its stop has passed |
| PacketGuards.PacketGuard.StartBeginsItsGesture | lib/units/websocket/ios-access.ts:255-261 | whatever passes under a number is the one start of that gesture, or comes after it on the same channel |
| PacketGuards.PacketGuard.OpenGesturesAreUnstopped | lib/units/websocket/ios-access.ts:255-278 | the gesture a channel has is one whose start has passed there and whose stop has not |
| PacketGuards.PacketGuard.DeliveriesAreLogged | lib/units/websocket/ios-access.ts:271-280 | the packets that passed, in their order, are exactly those answered as delivered, each once |
| PacketGuards.PacketGuard.TakeGesture | lib/units/websocket/ios-access.ts:247-278 | a start gives the channel a new gesture, a stop takes it away, and no other packet changes any; a packet passes under the gesture its channel has |
| PacketGuards.PacketGuard.TouchesAreInGestures | lib/units/websocket/ios-access.ts:159-164 | a delivered touch belongs to no gesture if and only if the gesture of its channel was forgotten for want of room while the touch was the first in its queue |
| PacketGuards.TouchMayLoseItsGesture | lib/units/websocket/ios-access.ts:257-268 | 128 gestures are open, a touch of one waits, a 129th begins: the touch goes on waiting without its gesture |
| PacketGuards.PacketGuard.BeginGesture | lib/units/websocket/ios-access.ts:252-268 | the channel has the new gesture; all others keep theirs, but for exactly one if there are more than 128, and that one is lost |
| PacketGuards.PacketGuard.EveryPacketIsAccountedFor | lib/units/websocket/ios-access.ts:99-130 | every packet is in exactly one queue or has its one answer; the pending count is exact and within all limits |
| PacketGuards.PacketGuard.QueuesPassInOrder | lib/units/websocket/ios-access.ts:156-158 | what passed a queue was delivered, and is a prefix of what was put into it in the order of submission |
| PacketGuards.PacketGuard.Submit | lib/units/websocket/ios-access.ts:287-319 | a packet passes at once, is answered at once, or is queued, under the next number; earlier answers stand |
| PacketGuards.PacketGuard.Continue | lib/units/websocket/ios-access.ts:217-281 | a verdict counts only under a current checkpoint: then the first packet passes with exactly that row, or all are refused; otherwise it is asked again or the deadline ends it |
| PacketGuards.PacketGuard.Authorize | lib/units/websocket/ios-access.ts:185-206 | the verdict allows exactly what the row permits; a row that is ready, settled and permits is never refused |
| PacketGuards.PacketGuard.Let | lib/units/websocket/ios-access.ts:247-281 | a permitted packet passes unless its gesture belongs to another identity or the counter is used up, and changes the gestures as `TakeGesture` says; a refusal ends the gesture of the channel; a touch passes without a gesture if and only if its channel has none |
| PacketGuards.PacketGuard.Turn | lib/units/websocket/ios-access.ts:156-184 | a packet that may not be presented is refused; an input passes at once exactly while an earlier permission of its channel lasts, for the same groups and with nothing invalidated; any other waits, with what was read before only if that was for the same class of events, recent and still valid |
| PacketGuards.PacketGuard.PermissionsAreShort | lib/units/websocket/ios-access.ts:231-241 | a permission that is kept was given by a row that permits inputs, and not longer ago than the cache time |
| PacketGuards.PacketGuard.FailChannel | lib/units/websocket/ios-access.ts:115-130 | all packets of a failed queue get the same answer, and its permission and gesture are gone |
| PacketGuards.PacketGuard.Run | lib/units/websocket/ios-access.ts:156-285 | the drain works until its first packet waits, it fails, or nothing is left |
| PacketGuards.PacketGuard.Resolve | lib/units/websocket/device-access.ts:190-198 | the serial of a channel is found exactly if it stands in the name, is known, or is looked up and was not missed a moment ago; otherwise, or if it could not be one, the packet is denied; a row gives a channel to no device but its own |
| PacketGuards.PacketGuard.ReadStarts | lib/units/websocket/ios-access.ts:140-142 | a read is dated by the revision at which it starts |
| PacketGuards.PacketGuard.ReadCompletes | lib/units/websocket/ios-access.ts:142-152 | the row that comes back keeps the date of its read, counts as ready only if it agrees with all that was said of its device, and its serial, channel, group, owner and session are the identity of the inputs that follow |
| PacketGuards.PacketGuard.ReadFails | lib/units/websocket/ios-access.ts:201-204 | a failed read leads to no permission |
| PacketGuards.PacketGuard.TimesOut | lib/units/websocket/ios-access.ts:207-212 | at its deadline a packet is turned away |
| PacketGuards.PacketGuard.StrayRead | lib/units/websocket/ios-access.ts:142-145 | a read nobody waits for any more breaks nothing |
| PacketGuards.PacketGuard.Updated | lib/units/websocket/device-access.ts:47-62 | a notification in the middle of anything is observed, invalidates its device and keeps every invariant of the guard; it gives a channel to no device but its own |
| PacketGuards.PacketGuard.Joined | lib/units/websocket/device-access.ts:37-40 | so does the beginning of a session |
| PacketGuards.PacketGuard.Released | lib/units/websocket/device-access.ts:42-45 | and its end |
| PacketGuards.PacketGuard.Invalidated | lib/units/websocket/device-access.ts:102-121 | an invalidation of a device, or of everything, is recorded and keeps every invariant |
| PacketGuards.PacketGuard.ChangeGroups | lib/units/websocket/index.ts:394-416 | a change of memberships invalidates everything decided before, and the new groups are those in force from then on |
| Bookings.ComputeGroupDates | lib/util/apiutil.ts:341-365 | the dates are the first one and its repetitions, one class duration apart |
| Bookings.OccurrencesAreDisjoint | lib/units/api/controllers/groups.ts:152-156 | a schedule whose life fits into its period never meets itself |
| Bookings.OverlapMeansSharedMoment | lib/units/api/controllers/groups.ts:85-86 | two bookings overlap exactly when some moment belongs to both |
| Bookings.CheckConflicts | lib/units/api/controllers/groups.ts:107-117 | the nested loops collect what `AllConflicts` lists, in order |
| Bookings.ConflictsAreExact | lib/units/api/controllers/groups.ts:73-105 | exactly the overlaps with other groups over common devices are reported, each from the later start to the earlier stop, with the devices in common and the name and owner of the group |
| Bookings.NoConflictMeansNone | lib/units/api/controllers/groups.ts:196-199 | nothing is reported if and only if no other group collides |
| Bookings.CutIsCommon | lib/units/api/controllers/groups.ts:89-96 | a reported time is what the two bookings have in common |
| Bookings.ClassesLastMinutes | lib/util/apiutil.ts:140-165 | how long a booking of each class may be and how far apart its repetitions are, in minutes |
| Bookings.ShrinkingNeedsNoCheck | lib/units/api/controllers/groups.ts:893-921 | the path that skips the conflict check is sound: same class, later start, earlier stop and no more repetitions only free time |
| Bookings.NeverBookedTwice | lib/units/api/controllers/groups.ts:73-118 | at no moment do two occurrences, of two groups or of one, hold the same device |
| GroupStore.CheckedScheduleIsOk | lib/units/api/controllers/groups.ts:120-180 | a schedule that passes the check has a known class, a life that fits it, and repetitions within the quota |
| GroupStore.AcceptedIff | lib/units/api/controllers/groups.ts:120-180 | exactly which schedules are accepted, and which of the others are forbidden and which malformed |
| GroupStore.Database.UpdateUserGroupDuration | lib/db/api.ts:1111-1123 | a duration is exchanged exactly when the allocation allows it |
| GroupStore.Database.ReserveUserGroupInstance | lib/db/api.ts:1086-1098 | one more group is counted exactly when the allocation allows it |
| GroupStore.Database.UpdateUserGroupsQuotas | lib/db/api.ts:1125-1160 | new quotas are taken together or not at all, and never fall below what is consumed |
| GroupStore.ReleaseIsPossible | lib/db/api.ts:1295-1312 | what a group was charged can always be given back |
| GroupStore.Database.CreateUserGroup | lib/db/api.ts:1059-1077 | a group is created exactly when its owner may have one more, and the accounts still balance |
| GroupStore.Database.DeleteUserGroup | lib/db/api.ts:1295-1320 | a group goes and exactly what it was charged comes back; the root group stays |
| GroupStore.Database.AddDevice | lib/db/api.ts:703-718 | a device is added and charged, exactly when the charge changes and fits |
| GroupStore.Database.RemoveDevices | lib/db/api.ts:720-732 | devices go and the charge afterwards is that of the devices left; it is never refused |
| GroupStore.Database.UpdateUserGroup | lib/db/api.ts:1281-1289 | a schedule changes exactly when the difference can be charged |
| GroupStore.DifferenceLength | lib/db/api.ts:720-730 | removing different devices of a group removes as many as it is discharged for |
| GroupStore.ChargedExactly | lib/util/apiutil.ts:231-236 | after a device is added the charge fits the devices if and only if the group did not have it |
| GroupStore.NextIsRefused | lib/db/api.ts:706-716 | after a device was added that the group had, the next one is refused as over quota, and only then |
| GroupRequests.NamedTwiceIsAddedTwice | lib/units/api/controllers/groups.ts:289-295 | a request that names a new device twice has it worked through twice, the second time as one that the group has |
| GroupRequests.WantedOnceIff | lib/units/api/controllers/groups.ts:289-295 | the list that is worked through names no device twice if and only if the request names none twice that is new to the group and can be had |
| GroupRequests.WantedIff | lib/units/api/controllers/groups.ts:284-295 | what is worked through was named, or can be had if nothing was named, and is new to the group |
| GroupRequests.OneMoreCharged | lib/db/api.ts:703-718 | after each device added the group is charged exactly if and only if no device was added twice, and after a repetition the charge is that of one more |
| GroupRequests.CreateGroup | lib/units/api/controllers/groups.ts:646-705 | the request creates one empty group or changes nothing; users get no administrator classes |
| GroupRequests.LeftOutMeans | lib/units/api/controllers/groups.ts:647-660 | a request that leaves something out asks for one booking of an hour from now on; a home for devices always lasts a year |
| GroupRequests.AddGroupDevice | lib/units/api/controllers/groups.ts:191-219 | conflicts are answered exactly when another group books the device at that time; the device is added exactly when it is free, the quota allows it and the charge changes |
| GroupRequests.AddGroupDevices | lib/units/api/controllers/groups.ts:184-308 | what is added was wanted and bookable; if the answer is success, all of it was added, and a group charged exactly before is so afterwards if and only if no device was wanted twice; a repetition can only be the last; nobody else's group or account is touched |
| GroupRequests.RemoveGroupDevices | lib/units/api/controllers/groups.ts:314-351 | exactly the named devices are removed, or all without a list, and the owner is charged for the rest |
| GroupRequests.UpdateGroup | lib/units/api/controllers/groups.ts:804-930 | a group that is not pending takes a new name exactly if nothing else is asked for. A pending one is refused with what its schedule is refused with, is unchanged if and only if name, class, repetitions, state and first date are what they were, and otherwise changes if and only if it only shrinks or nobody is in the way, and the difference is zero or can be charged; the new row is what was asked for, and its charge is exact |
| GroupRequests.Reschedule | lib/units/api/controllers/groups.ts:889-921 | the new row goes in if and only if it only shrinks or no other group is in the way, and the difference is zero or can be charged |
| GroupRequests.RenameGroup | lib/units/api/controllers/groups.ts:835-868 | times that cannot be read are an internal error, anything but a name is forbidden, the same name changes nothing, and another one is all that changes |
| GroupRequests.TargetIsRenewed | lib/units/api/controllers/groups.ts:814-833 | the row that a change asks for has what is asked for and keeps the rest; it is ready and free of charge if it is a home for devices, else charged for its devices, length and repetitions |
| GroupRequests.DeleteGroup | lib/units/api/controllers/groups.ts:711-747 | a group is deleted unless it is the root group or one of its devices is booked |
| GroupRequests.DeleteGroups | lib/units/api/controllers/groups.ts:749-776 | exactly the groups answered as deleted are gone, the others are as before |
| BookingRaces.RunsBookNothingTwice | lib/units/api/controllers/groups.ts:191-219 | however requests interleave, and however long after its check a row is written, no device is booked twice, as long as no two requests have passed their conflict checks for the same device and time |
| BookingRaces.AdditionsAreSafe | lib/units/api/controllers/groups.ts:191-219 | requests that only add and remove devices, shrink and delete never book a device twice |
| BookingRaces.AdditionsNeverClash | lib/db/api.ts:609-633 | the device lock spans check and write, so two additions never clash |
| BookingRaces.WriteKeepsIff | lib/units/api/controllers/groups.ts:893-921 | the write of a device, or of a new schedule after its check, is safe if and only if it clashes with nothing that another request has found free |
| BookingRaces.BookedTwiceIff | lib/units/api/controllers/groups.ts:893-921 | of two requests that have passed their checks both finish, and rows overlap afterwards if and only if the two clash |
| BookingRaces.MovesTogetherBookTwice | lib/units/api/controllers/groups.ts:893-921 | from the empty farm: two groups with the same device move to the same time, both checks before both writes, and the device is booked twice |
| BookingRaces.AdditionUnderAMoveBooksTwice | lib/units/api/controllers/groups.ts:893-921 | from the empty farm: between check and write of a move another request adds the device completely, and it is booked twice |
| BookingRaces.MoveUnderAnAdditionBooksTwice | lib/units/api/controllers/groups.ts:893-921 | from the empty farm: between check and write of an addition a group moves completely, and the device is booked twice |
| GroupLocks.NeverHeldTwice | lib/db/api.ts:778-880 | in every run at most one request holds the lock, and the flag says whether one does |
| GroupLocks.NoUserOvertakes | lib/db/api.ts:842-880 | once an administrator has asked, no user acquires the lock before an administrator has had it and given it back |
| GroupLocks.AdminIsNext | lib/db/api.ts:842-870 | an administrator who found the lock taken gets it once its holder lets go, whatever users try |
| GroupLocks.GroupRow.LockGroup | lib/db/api.ts:816-836 | a user acquires the lock exactly when neither flag is set |
| GroupLocks.GroupRow.UnlockGroup | lib/db/api.ts:838-840 | a user's release leaves an administrator's mark |
| GroupLocks.GroupRow.AdminLockGroup | lib/db/api.ts:842-870 | an administrator marks the row in any case and acquires exactly when nobody held it |
| GroupLocks.GroupRow.AdminUnlockGroup | lib/db/api.ts:872-880 | an administrator's release takes the mark away |
| TtlSets.TtlSet.Bump | lib/util/ttlset.ts:35-50 | the value becomes the last member with the new time; the timer is set only when it is the first; order and timer stay right if time does not run backwards |
| TtlSets.TtlSet.Drop | lib/util/ttlset.ts:52-54 | the value is gone, the others and their order stay |
| TtlSets.TtlSet.Check | lib/util/ttlset.ts:68-82 | the expired members at the head go, announced in order; in sorted sets these are exactly the expired ones; the timer is set for the rest |
| TtlSets.TtlSet.ScheduleCheck | lib/util/ttlset.ts:60-66 | the timer goes off when the head expires, or at once |
| TtlSets.TtlSet.Splice | lib/util/ttlset.ts:108-132 | a node leaves the doubly linked list, which stays well formed |
| TtlSets.TtlSet.Append | lib/util/ttlset.ts:38-49 | a node is linked behind the tail |
| TtlSets.TtlSet.DropItem | lib/util/ttlset.ts:96-106 | list, map and events lose the member together |
| TtlSets.TtlSet.Create | lib/util/ttlset.ts:84-94 | a new value is mapped and, unless silent, announced |
| TtlSets.TtlSet.Stop | lib/util/ttlset.ts:56-58 | no timer is armed |
| TtlSets.FreshIsExact | lib/util/ttlset.ts:72-79 | in order, dropping from the head drops exactly what has expired |
| TtlSets.FreshIsExactIff | lib/util/ttlset.ts:72-79 | in any order, dropping from the head drops exactly what has expired if and only if nothing expired stands behind something that has not |
| TtlSets.UnsortedMayLinger | lib/util/ttlset.ts:72-79 | out of order, an expired member may stay behind a younger one |
| TtlSets.BumpKeepsInOrder | lib/util/ttlset.ts:35-50 | bumps at the latest time keep the list sorted and its timer early enough |
| TtlSets.AnnouncedDrop | lib/util/ttlset.ts:96-106 | announced drops and inserts of a value alternate (with `AnnouncedInsert` for the other half) |
| TtlSets.AnnouncedInsert | lib/util/ttlset.ts:84-94 | announced inserts and drops of a value alternate |
| AdbKeys.NewtonSquaresTheError | lib/util/adbkeyutil.ts:43-45 | a Newton step squares the error: the number of correct bits doubles |
| AdbKeys.RemIsResidue | lib/util/adbkeyutil.ts:44 | taking the truncated remainder, adding the modulus and reducing again gives the residue, also of negative numbers |
| AdbKeys.Invert | lib/util/adbkeyutil.ts:40-45 | five steps from 1 give the inverse of every odd number modulo 2^32 |
| AdbKeys.ComputeN0Inv | lib/util/adbkeyutil.ts:40-46 | n times n0inv is -1 modulo 2^32 if and only if n is odd |
| AdbKeys.WriteLittleEndian | lib/util/adbkeyutil.ts:23-29 | the bytes from the offset on become those of the value, all others stay |
| AdbKeys.LittleEndianRoundTrip | lib/util/adbkeyutil.ts:23-29 | whatever fits is read back as it was written |
| AdbKeys.WordsHold | lib/util/adbkeyutil.ts:37-38 | the words counted from the bit length hold the modulus |
| AdbKeys.FewerWordsDoNot | lib/util/adbkeyutil.ts:37-38 | no fewer words would |
| AdbKeys.MontgomerySquareIsSquare | lib/util/adbkeyutil.ts:47 | rr is the square of 2^(32 words) modulo n |
| AdbKeys.EncodePublicKey | lib/util/adbkeyutil.ts:35-54 | reading the struct back gives words, n0inv, modulus, rr and exponent; it fails exactly for modulus 0 and numbers beyond their field |
| MessageStreams.DelimitingStream.Transform | lib/wire/messagestream.ts:61-76 | a message leaves behind its length |
| MessageStreams.DelimitedStream.Transform | lib/wire/messagestream.ts:21-53 | the loop emits and keeps what `Drain` says of all bytes so far |
| MessageStreams.LengthIsRead | lib/wire/messagestream.ts:25-37 | the varint of a length below 2^31 is read back through 32-bit shifts |
| MessageStreams.CutsInTwo | lib/wire/messagestream.ts:38-44 | a message and what stays behind it are all the bytes that were there, whatever the length |
| MessageStreams.ChunksDoNotMatter | lib/wire/messagestream.ts:21-53 | however the bytes are cut, the messages are those of all bytes at once, unless a negative length cuts a message off from the end of the bytes |
| MessageStreams.ChunksDoNotMatterIff | lib/wire/messagestream.ts:21-53 | the messages are the same under every cutting if and only if no negative length is followed by more bytes than it cuts off |
| MessageStreams.FirstDifference | lib/wire/messagestream.ts:38-44 | at the first such length, with one byte behind it the message is empty, and with all of them it is not |
| MessageStreams.StreamIsDecoded | lib/wire/messagestream.ts:21-76 | decoding undoes encoding under any chunking, and each message is emitted as soon as its last byte is in |
| MessageStreams.NegativeLengthDependsOnChunks | lib/wire/messagestream.ts:27-43 | five bytes that announce length -1 make the chunks matter |
| MessageStreams.TooLongIsMisread | lib/wire/messagestream.ts:65-68 | a message of 2^31 bytes is announced as empty |
| Mjpeg.MjpegDecoder.Feed | lib/units/ios-provider/mjpeg.ts:6-42 | the loops hand out and keep what `Drain` says of all bytes so far, fail as it does, and keep less than 8 MiB |
| Mjpeg.LittleIsKept | lib/units/ios-provider/mjpeg.ts:15-32 | what is kept for later is less than the frame under way, or headers within their limit |
| Mjpeg.FramesArePictures | lib/units/ios-provider/mjpeg.ts:26-38 | whatever is handed out has 4 bytes to 8 MiB and the marks of a beginning and an end |
| Mjpeg.HeadersThenBody | lib/units/ios-provider/mjpeg.ts:20-40 | complete headers fail exactly if they give no length from 4 to 8 MiB, and complete bytes behind them exactly if they lack the marks |
| Mjpeg.EndlessHeaders | lib/units/ios-provider/mjpeg.ts:14-19 | headers without an end fail exactly above 16384 bytes |
| Mjpeg.LengthIsThatOfFirstField | lib/units/ios-provider/mjpeg.ts:20-22 | the length is that of the first field that begins a line and is well formed, or there is none |
| Mjpeg.FieldIsRead | lib/units/ios-provider/mjpeg.ts:21 | the field is read in any case, with space around its digits, up to the end of the line |
| Mjpeg.ReadIsField | lib/units/ios-provider/mjpeg.ts:21 | nothing else is read as the field |
| Mjpeg.DecimalIsRead | lib/units/ios-provider/mjpeg.ts:22 | a number written in decimal digits is read back |
| Mjpeg.DrainMore | lib/units/ios-provider/mjpeg.ts:9-40 | what was done with some bytes is done the same way when more follow |
| Mjpeg.ChunksDoNotMatter | lib/units/ios-provider/mjpeg.ts:6-42 | however the bytes are cut, the frames are those of all bytes at once, as long as no chunk fails |
| Mjpeg.StreamIsDecoded | lib/units/ios-provider/mjpeg.ts:6-42 | a well-formed stream never fails, and each picture is handed out as soon as its last byte is in, under any chunking |
| Mjpeg.PartIsKept | lib/units/ios-provider/mjpeg.ts:11-32 | no beginning of a picture is handed out, however its blank lines, headers and bytes are cut |
| KeyMaps.KeyMapParser.Read | lib/util/keyutil.ts:500-517 | a chunk is read character by character, up to the first that must not come there |
| KeyMaps.FailsWhereUnexpected | lib/util/keyutil.ts:94-517 | reading fails exactly at the first character that the state does not expect |
| KeyMaps.ReadsExpected | lib/util/keyutil.ts:94-494 | which characters each state expects, and that blanks change nothing |
| KeyMaps.WrittenIsParsed | lib/util/keyutil.ts:94-494 | a key map that is written out and parsed comes back: type, keys, one behavior list for every line, and for every combination of the line a rule that shares that list |
| KeyMaps.LeadsByLine | lib/util/keyutil.ts:225-288 | a line adds one rule for each comma-separated combination of its `+` modifiers, all with the one list of its behaviors |
| KeyMaps.LeadsByWritten | lib/util/keyutil.ts:289-452 | a literal, a fallback or none is read as the behavior it spells |
| KeyMaps.LeadsBySpelling | lib/util/keyutil.ts:289-332 | plain characters, escapes and four hexadecimal digits give the character they stand for |
| KeyMaps.LeadsByDigits | lib/util/keyutil.ts:453-489 | four hexadecimal digits are added up by their weights |
| KeyMaps.LeadsByBlock | lib/util/keyutil.ts:165-232 | a key's block adds the key, its rules and its lists, and nothing else |
| KeyMaps.LinesDoNotShare | lib/util/keyutil.ts:262-272 | rules of different lines never share a behavior list |
| Bridges.StartsAreSerial | lib/units/ios-provider/bridge.ts:284-309 | a request starts only after the last one has settled, and in the order of enqueuing |
| Bridges.IosBridge.RequestsKeepToTheirSession | lib/units/ios-provider/bridge.ts:284-309 | every request started in the epoch, and for the owner, its operation was enqueued under |
| Bridges.IosBridge.Begin | lib/units/ios-provider/bridge.ts:288-293 | an operation of an ended session is rejected before it asks the device |
| Bridges.IosBridge.DeviceArrives | lib/units/ios-provider/bridge.ts:293-303 | the request starts exactly if the device is the same, usable, and the session still on |
| Bridges.IosBridge.UnusableIff | lib/units/ios-provider/bridge.ts:293-301 | exactly what keeps a request from starting |
| Bridges.IosBridge.Settle | lib/units/ios-provider/bridge.ts:303-307 | however a request ends, the next operation gets its turn |
| Bridges.IosBridge.Enqueue | lib/units/ios-provider/bridge.ts:268-288 | an operation takes the epoch and the abort signal of the moment with it, and the touch that led to it |
| Bridges.IosBridge.Join | lib/units/ios-provider/bridge.ts:319-335 | the first becomes owner in a new epoch, with nothing of an earlier session left to be played; the owner may join again and changes nothing; others are refused |
| Bridges.IosBridge.Leave | lib/units/ios-provider/bridge.ts:337-353 | the epoch ends, its operations are aborted, and nothing of the session is left to be played |
| Bridges.IosBridge.TouchesServeTheOwner | lib/units/ios-provider/bridge.ts:92-154 | a request that a touch has led to runs in the epoch and for the owner under which the touch was handed in, and the touch named the reservation of that owner |
| Bridges.IosBridge.Play | lib/units/ios-provider/bridge.ts:94-134 | the closures that the reorderer runs leave the screen as `AfterCalls` says and enqueue exactly what `Orders` lists, under the present epoch, signal and owner |
| Bridges.IosBridge.TouchArrives | lib/units/ios-provider/bridge.ts:92-151 | a touch hands one closure to the reorderer, with its kind and contact, and what becomes due is played and enqueued; without an owner nothing happens |
| Bridges.IosBridge.GestureStarts | lib/units/ios-provider/bridge.ts:135-137 | a start comes to what the reorderer says of it, and what becomes due is played and enqueued |
| Bridges.IosBridge.GestureStops | lib/units/ios-provider/bridge.ts:152-154 | so does a stop |
| Bridges.IosBridge.GestureIsCancelled | lib/units/ios-provider/bridge.ts:138-142 | so does a cancellation, of one gesture or of all up to it |
| Bridges.IosBridge.TouchTimerFires | lib/wire/touch-gesture.ts:290-298 | so does a timer of the reorderer: the current gesture is given up, and the next plays |
| BridgeTouches.OrdersComeFromUp | lib/units/ios-provider/bridge.ts:111-134 | whatever is ordered, a played packet orders it, and that is the lifting of a finger |
| BridgeTouches.TwoFingersOrderNothing | lib/units/ios-provider/bridge.ts:94-102 | once a second finger has been down nothing is ordered until the touch is reset |
| BridgeTouches.SecondFingerOrdersNothing | lib/units/ios-provider/bridge.ts:94-98 | another contact than the first, or a second touch of the same, orders nothing until the touch is reset |
| BridgeTouches.OneFingerTapsOrSwipes | lib/units/ios-provider/bridge.ts:92-134 | one finger that goes down, moves and goes up orders a tap where it was last, if it was less than 0.005 from where it went down, else a swipe from there, for as long as it was down within 50 ms and 5 s; and nothing if its lifting arrived first |

## Left out

- Touch gestures as shared records: the repository moves one mutable record between `current`, `pending` and `waiting`; here records are values and `waiting` holds their keys. The identifier format is a datatype (text, source, order, time of issue). Which qualifying source is evicted, and the order in which pending gestures are dropped, is left open. Error texts are a datatype, and the length of a timeout is not modelled.
- TouchGestures.TouchGesture.Schedule: the branch for a full buffer is not written out, because it cannot be reached (`TouchRing.HalfRingIsSmall`). Sequence numbers that are not integers are refused by the code and excluded by type here.
- TouchGestures.TouchGesture.Clear: the list of retired identifiers is bounded, so the cleared one is promised to be on it only if no stop was played since; the promoted gesture may play one at once.
- TouchGestures.TouchGesture.Consume: once a handler has ended the gesture the handlers still queued do nothing in the source; they are dropped with the queue.
- DeviceAccess: several lookups of one channel that share a promise count as one; which entry of a full map is evicted is left open; the platform field of a row is kept with the others.
- PacketGuards.PacketGuard.Resolve: a channel belongs to one device for the whole life of the guard, that is of its socket; a row that gives a known channel to another device is left out (the provider draws channel names at random).
- PacketGuards.PacketGuard.Updated: so is a notification that does.
- PacketGuards: which of the other gestures is forgotten for want of room is left open. Group identifiers inside an owner record, the effects of a gesture reset on the provider, and the error texts are not modelled. A second lookup under another name, which the code makes when a channel was forgotten meanwhile, counts as a refusal; the checkpoint is stale then, so it is never used.
- PacketGuards.PacketGuard.PermissionsAreShort: counted from the latest time at which a verdict was looked at; the wall clock is an argument and may jump.
- GroupRequests: who may lock a group, the retry loops around locks, e-mail addresses that name no user, and the texts of the answers. Device rows enter as the list of serials the user may book.
- BookingRaces: the quota steps, the state of a group and the lock of the device's home group; leaving them out only allows more interleavings, and the three runs that book a device twice keep to them.
- The scheduler that shifts the dates of recurring groups, and changes to the bookable and standard groups by administrators.
- GroupLocks: a row that does not exist, and the number of retries.
- TtlSets: values are strings (numbers are keys of the same map as their text).
- AdbKeys.EncodePublicKey: base64, the fingerprint check and the comment.
- MessageStreams.StreamIsDecoded: messages of length 0, of which a trailing one is only noticed with the next byte.
- Bridges: registration, keys, text and installation, what an operation does with the device, the second request with which an interrupted installation is cancelled, and broadcasts.
- Mjpeg.StreamIsDecoded: headers that end beyond 16384 bytes, which fail or not depending on the chunks.
- KeyMaps.WrittenIsParsed: optional spaces after a comma or a plus sign, tabs between behaviors (which the parser refuses), repeated type lines, and the character map built from the rules. A word that the parser spells out state by state is one state with the rest of the word.
- Everything that is transport, storage or user interface.
