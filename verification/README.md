# Verified model of swaylock-plugin's protocol core

swaylock-plugin locks a session and lets an ordinary wallpaper program draw the lock screen. It runs a
nested Wayland compositor for that program, keeps its double-buffered state, and replays the result onto
the lock surfaces of the real compositor. This project models that translation layer and the small runtime
under it, and proves what the program relies on. `dafny verify dfyconfig.toml` checks all of it.

Each component has a value-level specification (one function per handler, and runs of handlers) with the
theorems about it, and, where the program updates records in place, a class whose methods are proved to
take exactly the step of the specification. Ghost fields record what the other side sees: acks and commits
sent upstream, signals delivered, buffers destroyed, callbacks called. What the state is after a run is also told
from the requests and events alone, by functions that know neither the lists nor the tables of the program
(`LockJournal`, `PasswordHistory`, `SubsurfaceOrder` and the `History` modules), and proved to be the same.

| files | component |
|---|---|
| `LockProtocol`, `LockSafety`, `LockTheorems`, `LockSerials`, `LockClientless`, `LockJournal`, `LockSurface` | configure/ack serial translation between the lock surface and the plugin's layer surface |
| `SurfaceSizes`, `Division`, `LockOrder`, `LockSizes`, `LockSizeRuns` | the size the program checks and the size the compositor shows, over whole runs |
| `WlList`, `Stacking`, `SubsurfaceTree`, `SubsurfaceOrder`, `SubsurfaceReplay` | libwayland list operations on real rings; the subsurface forest and stacking order; its replay upstream |
| `Linkage`, `BufferGraph`, `BufferHistory`, `BufferObjects` | buffers, the surfaces that name them, and the sentinel attachments |
| `ColorRecords`, `ImageDescriptions`, `ImageDescRuns`, `ImageDescHistory`, `ImageDescObjects` | image descriptions and reference-counted property records |
| `ShmPools`, `ShmHistory` | upstream shm pools shared by backing file |
| `FrameCallbacks`, `FrameObjects` | frame-callback queues and batches |
| `DiffCommit` | commits that forward only differences |
| `Clock`, `Pause`, `PauseClients` | pausing hidden clients with SIGSTOP and SIGCONT |
| `FdLoop`, `Timers` | the event loop under callbacks that change it |
| `Unicode`, `Sextets`, `Rfc3629`, `Password`, `PasswordTimers`, `PasswordHistory`, `PasswordEditor` | the password buffer and the editor's timers |
| `Comm`, `CommPipes` | the password pipe and the checking process |
| `GrowableArray`, `Pixels`, `Options` | the append kernel, the pixel conversion kernel, the option type |

Where the code does not meet a promise in every case, the code is modelled as it is: a lemma shows a failing
input and another states exactly when the promise holds.

- A first configure serial can be acked after newer ones once a zero-sized configure arrives under a
  configured plugin surface, or a plugin makes its initial commit before the size is known, the two events named
  by `LockProtocol.LosesFirst` (`LockSerials.AcksExactly`, with the run `LockTheorems.EarlyCommit`). The sizes of
  commits do not suffer from these events (`LockSerials.SizesExactly`).
- An upstream commit can give the surface another size than the configure acked last. Exactly these events lead
  to one (`LockSerials.SizesExactly`): an initial commit answered with the first serial after the size has changed
  (`LockSizeRuns.ResizeBreaksSizes`); an accepted commit whose size upstream is decided by viewport state of an
  earlier client, by a source rectangle that goes up one change late or by a rotated buffer
  (`LockSizeRuns.LeftoverBreaksReplacement`, `LateSourceBreaksSizes`, `RotationBreaksSizes`); a fallback over such
  state (`LeftoverBreaksFallback`); a rejected commit over a shown surface (`RejectedCommitStaysAttached`,
  `RejectionBreaksSizes`).
- An ack held back at the fall to clientless mode stays so for ever, with nothing newer to ack from the next configure
  on (`LockClientless.ClientlessPending`, with the run `LockClientless.HeldBackForEver`).
- Attaching NULL over a buffer, and committing or destroying a surface whose pending buffer was already
  destroyed, break the buffer bookkeeping (`BufferGraph.StepExactly`, with the run `BufferGraph.CarelessRequests`).
- A subsurface's parent pointer dangles if the parent is destroyed first (`SubsurfaceTree.EndSurfaceExactly`,
  `SubsurfaceTree.ParentGoesFirst`).
- A surface that loses the subsurface role and is given it again is never moved (`SubsurfaceOrder.OrdersTold`,
  `SubsurfaceOrder.RevivedStays`, `SubsurfaceOrder.RevivedArises`).
- A viewport destination outlives the client's viewport object (`DiffCommits.Transparent`,
  `DiffCommits.DestroyedViewportStays`), a source rectangle goes upstream one change late
  (`DiffCommits.SourceMirroredExactly`, `LockSizeRuns.LateSourceBreaksSizes`), and state a previous client left on the
  surface is not reset (`DiffCommits.LeftoverStays`, `LockSizeRuns.LeftoverBreaksReplacement`).
- A callback queued on a surface that is destroyed is never completed (`FrameCallbacks.OrphansExactly`,
  `FrameCallbacks.NeverCompleted`, `FrameCallbacks.OrphanArises`).
- A descriptor removed, registered again and removed again before the next poll keeps its second callback
  (`FdLoops.RemoveExactly`, `FdLoops.RemoveCanMiss`).
- A frame completed in the first second of the monotonic clock is taken for none (`Pausing.HiddenExactly`,
  `Pausing.FirstSecondMissed`).

The environment is assumed to behave as its protocols say: upstream configure serials of one surface increase
(the 32-bit wrap of serials is not reached), `clock_gettime` is monotone and normalised, and ids of live objects
are distinct. An assertion failure, a division by zero and the use of an uninitialised buffer are modelled as
the end of the run.

## Model

| member | source | states |
|---|---|---|
| LockTheorems.AcksIncrease | main.c:320-388 | in every run without an event that `LosesFirst` names (a zero-sized configure under a configured plugin, an initial commit before the size is known), through protocol errors, client replacement and clientless mode, upstream acks are strictly increasing serials that were received; `has_newer_serial` holds exactly when the newest is unacked; a held-back ack implies it while plugins can draw |
| LockSerials.AcksExactly | forward.c:496-507 | after every run without an event that `LosesFirst` names, the next event leaves every continuation's acks increasing if and only if it is not one either |
| LockTheorems.SafeExactly | forward.c:496-507 | the same from every state that satisfies the invariant |
| LockSerials.FreshInRuns | main.c:1757-1763 | a serial handed to the client is new in every run that uses fewer than 2^32 of them |
| LockTheorems.OvertakeRun | forward.c:496-521 | after an event that `LosesFirst` names there is a run without any protocol error in which a replacement client acks a serial older than the last one acked |
| LockTheorems.EarlyCommit | forward.c:489-507 | such a run from the very start: serial 1 is acked after serial 2 |
| LockClientless.ClientlessPending | main.c:1832-1880 | after the fall to clientless mode every continuation keeps "a held-back ack implies an unacked configure" if and only if no ack was held back at the fall; the record of one that was never changes |
| LockClientless.HeldBackForEver | main.c:360-391 | a run without any protocol error: serial 2 is held back for ever, serial 3 acked, nothing newer |
| LockTheorems.CommitSizesMatch | forward.c:554-618 | in every run, protocol errors and the events of `LosesFirst` included, every upstream commit (plugin, injected, fallback) gives the surface the size carried by the configure acked last before it, unless one of the events named by `LockSizes.Spoils` happened |
| LockSerials.SizesExactly | forward.c:489-618 | after every run without an event that `Spoils` names, the next event leaves the commits of every continuation without one at the acked size if and only if it is not one either; an event that `LosesFirst` names never is |
| LockSizeRuns.SizesSafeExactly | forward.c:489-618 | the same from every state that satisfies the invariants, `LosesFirst` allowed before, at and after the event |
| LockOrder.TracedStep | main.c:320-388 | every legal event keeps the newest configure known, and the table in order with nothing newer than it |
| LockSizeRuns.AcceptedExactly | forward.c:547-618 | an accepted commit is of the acked size if and only if, told from the state before it, a destination is pending, or else the destination left upstream, the late source rectangle or the buffer under the scale and transform in force give that size |
| LockSizeRuns.FallbackExactly | main.c:1806-1830 | the fallback's commit is of the acked size if and only if the viewport and transform left upstream allow it |
| SurfaceSizes.CheckedExactly | forward.c:554-590 | which size the check takes a commit for: the destination, else the whole source rectangle, else the buffer over the unsigned scale |
| SurfaceSizes.WillShowExactly | forward.c:239-267 | that condition is the compositor's size rule applied to the surface after the differences were sent |
| SurfaceSizes.EveryBufferAgrees | forward.c:554-590 | checked and shown size agree for every buffer if and only if nothing left upstream stands in the way of the client's viewport, scale and transform |
| SurfaceSizes.EveryFallbackShows | main.c:1823-1826 | the fallback shows every configured size if and only if no viewport state and no rotation is left upstream |
| LockSizeRuns.ResizeBreaksSizes | forward.c:504-507 | a run where the output grows before the initial commit: 20x20 is committed after the 10x10 configure was acked |
| LockSizeRuns.LateSourceBreaksSizes | forward.c:255-267 | a run where a source rectangle passes the check as 20x20 and the surface is shown at 40x40 |
| LockSizeRuns.RotationBreaksSizes | forward.c:52-66 | a run where a buffer rotated by 90 degrees passes the check as 10x20 and is shown as 20x10 |
| LockSizeRuns.LeftoverBreaksFallback | main.c:1806-1830 | a run where the fallback for a 20x20 configure is shown at 10x10 |
| LockSizeRuns.LeftoverBreaksReplacement | forward.c:235-253 | a run where a replacement client's 20x20 surface is shown at 10x10 |
| LockSizeRuns.RejectedCommitStaysAttached | forward.c:551-592 | a commit rejected for its size has already changed the surface; the next injected commit is still right if and only if it left the shown size alone |
| LockSizeRuns.RejectionBreaksSizes | forward.c:551-592 | a run where a rejected 30x30 buffer is shown under the 20x20 configure |
| LockSafety.InvStep | main.c:320-388 | every event keeps the invariant tying table, newest serial, pending serial, first serial and acks together |
| LockSizes.SizesStep | forward.c:554-618 | every legal event that `Spoils` does not name keeps each table entry at the size of its configure and the upstream surface at the size acked last |
| LockJournal.TableTold | main.c:1626-1680 | told from the events alone, in every run that has not ended in an assertion: the serial table is exactly what the present surface was handed after the configure it acked last, in order; the held-back ack is that of the last acked configure; and the acks sent upstream are those that were due |
| LockJournal.AckOutstanding | main.c:1641-1680 | acking any configure handed to the surface after the one it acked last is no error, leaves everything handed after it in the table, and holds back exactly the upstream configure it was paired with, unless it was local |
| LockJournal.AckOther | main.c:1632-1667 | repeating the last ack changes nothing, and any other serial disconnects the client |
| LockJournal.StepTold | forward.c:464-618 | every event changes the state as the journal says |
| LockJournal.RedrawsExactly | render.c:52-74 | a change is committed at once, or by the end of the injected frame under way, and between two injected commits there is always the end of a frame |
| LockProtocol.Find | main.c:1641-1672 | the first table entry with a plugin serial, or the table's length |
| LockSurfaces.LockSurface.Configure | main.c:360-391 | the configure handler takes the specified step on the record in place |
| LockSurfaces.LockSurface.PassConfigure | main.c:320-358 | forwarding a configure: first serial, or a new table entry for a configured plugin |
| LockSurfaces.LockSurface.AnswerConfigure | main.c:376-388 | without a nested server a configure is acked and answered at once |
| LockSurfaces.LockSurface.FindEntry | main.c:1641-1672 | the table loop finds exactly the first entry for the serial |
| LockSurfaces.LockSurface.AckConfigure | main.c:1626-1680 | the ack handler: entries up to the serial dropped in place, the upstream ack held back unless local |
| LockSurfaces.LockSurface.GetLayerSurface | main.c:1709-1790 | a new layer surface starts unconfigured with an empty table |
| LockSurfaces.LockSurface.InitialSurfaceCommit | forward.c:489-534 | the first commit is answered by a configure paired with the right upstream serial, or a local one |
| LockSurfaces.LockSurface.SurfaceCommit | forward.c:464-618 | the commit handler takes the specified step on record and upstream surface, sending a held-back ack right before the commit, or ends the client |
| LockSurfaces.LockSurface.SendUpdates | forward.c:336-369 | differences and buffer go upstream before the size is checked |
| LockSurfaces.LockSurface.FlushPendingAck | forward.c:600-609 | the held-back ack goes out and clears `has_newer_serial` if it is the newest |
| LockSurfaces.LockSurface.RenderFallbackSurface | main.c:1806-1830 | the fallback commits a buffer of the current size at scale 1 and leaves viewport and transform upstream |
| LockSurfaces.LockSurface.SetupClientlessMode | main.c:1832-1880 | clientless mode: unanswered newest configure acked, fallback shown |
| LockSurfaces.LockSurface.AddSerialPair | forward.c:157-170 | one entry appended with the current size and the next plugin serial |
| WlLists.InsertBefore | forward.c:68-73 | on a real doubly linked ring, inserting before a link yields the ring with the element at that place |
| WlLists.TakeOver | forward.c:453-456 | copying a list head and re-aiming its neighbours moves the whole ring and leaves the old head empty |
| WlLists.Neighbours | forward.c:68-73 | a member's neighbours are the stations beside it on its own ring |
| WlLists.Insert | forward.c:424-434 | inserting after a link yields the ring with the element right after it |
| WlLists.Remove | forward.c:404-410 | removing a link yields the ring without it |
| Stacking.PlaceAbove | forward.c:878-906 | on the two rings of a parent, place_above is "take out, insert directly above the reference" on below ++ [parent] ++ above |
| Stacking.PlaceBelow | forward.c:907-934 | place_below is "take out, insert directly below the reference" on the same order |
| Stacking.FlatWithout | forward.c:878-934 | taking a child out of its list takes it out of the combined order and out of nothing else |
| Stacking.FlatWith | forward.c:878-934 | inserting into one of the two lists is inserting at the corresponding place of the combined order |
| SubsurfaceTree.RunKeeps | forward.c:981-1047 | in every run that destroys no surface before its children the parent relation is a forest, and each child is in exactly one of its parent's lists exactly once |
| SubsurfaceTree.PlaceRefines | forward.c:878-934 | a place request does exactly the move to its parent's lists and nothing to any other's |
| SubsurfaceTree.PlacedListsFlat | forward.c:878-934 | the list operations of a place request refine the move on the combined order and keep its members |
| SubsurfaceTree.ForestAttach | forward.c:1000-1047 | attaching a root under another tree keeps every ancestor walk finite |
| SubsurfaceTree.CycleOtherwise | forward.c:1000-1012 | a request that is refused for its ancestor would have made the walk endless |
| SubsurfaceTree.EndSurfaceExactly | forward.c:700-760 | destroying a surface keeps the forest over live surfaces if and only if it has no child |
| SubsurfaceTree.ParentGoesFirst | forward.c:700-760 | a concrete run whose last request leaves a parent pointer to a surface that is gone |
| SubsurfaceTree.StepKeeps | forward.c:981-1047 | every request but the destruction of a parent before its child keeps forest and lists |
| SubsurfaceOrder.OrdersTold | forward.c:878-1047 | as one order for each parent, in every run: a new child goes on top, a place request moves one directly next to its reference and nothing else, an ended role takes one out |
| SubsurfaceOrder.RevivedStays | forward.c:664-698 | a surface whose role has ended is never moved again, also when it is made a child again |
| SubsurfaceOrder.RevivedArises | forward.c:664-698 | such a surface in a reachable state |
| SubsurfaceTree.FindRoot | forward.c:1000-1012 | the ancestor walk ends, at the root |
| SubsurfaceReplay.ReplayOrders | forward.c:404-434 | replaying the emitted requests gives below ++ [background] ++ above ++ [indicator] from any earlier order; every request names a current sibling or the parent |
| SubsurfaceReplay.PlaceEntry | forward.c:205-224 | one entry's requests put it next to the block in order, whatever its place before |
| SubsurfaceReplay.ParentSurface.ApplySubsurfaces | forward.c:404-434 | the loops send exactly those requests and leave the committed lists equal to the pending ones |
| SubsurfaceReplay.ChildSurface.ApplyEntry | forward.c:205-224 | one entry's requests, and its committed copy equal to the pending one |
| Linkage.DetachAgrees | forward.c:95-108 | unlinking keeps lists and fields in agreement |
| Linkage.LinkAgrees | forward.c:110-112 | linking keeps lists and fields in agreement |
| BufferGraph.Lifetimes | forward.c:80-108 | in every run of a careful client lists and fields agree both ways, no surface names a freed buffer, and each upstream buffer is still forwarded or destroyed exactly once |
| BufferGraph.StepExactly | forward.c:339-369 | a request neither aborts nor breaks the bookkeeping if and only if it is none of the three careless ones |
| BufferGraph.AttachKeeps | forward.c:80-113 | an attach fails exactly when it puts NULL over something |
| BufferGraph.CommitKeeps | forward.c:336-369 | a commit keeps the bookkeeping exactly when the pending buffer still has its resource |
| BufferGraph.DestroyBufferKeeps | forward.c:1086-1107 | a destroyed buffer survives exactly while a surface has it pending and not committed |
| BufferGraph.DestroySurfaceKeeps | forward.c:714-725 | destroying a surface fails exactly when its pending buffer is already destroyed |
| BufferGraph.CommittedGone | forward.c:80-108 | what a careless commit leads to: the next attach hits an assertion |
| BufferGraph.CarelessRequests | forward.c:80-108 | a run of careful requests from the empty state after which each of the three careless ones fails, the commit at the attach that follows it |
| BufferGraph.Conserved | forward.c:1086-1107 | no request loses an upstream buffer or un-destroys one |
| BufferHistory.FieldsTold | forward.c:80-113 | told from the requests alone, in every run of a careful client: the pending buffer is the one attached last, the committed one what was attached at the last commit, and after the buffer's destruction the fields say just that |
| BufferObjects.Forwarder.AttachBuffer | forward.c:80-113 | the attach handler on heap records takes the specified step |
| BufferObjects.Forwarder.CommitAttachment | forward.c:336-369 | the attachment part of a commit takes the specified step |
| BufferObjects.Forwarder.DestroyForwardBuffer | forward.c:1086-1107 | the buffer destructor's loops take the specified step |
| BufferObjects.Forwarder.DestroyNestedSurface | forward.c:714-725 | the surface destructor takes the specified step |
| ImageDescRuns.Lifetimes | forward.c:1805-1829 | in every run a description is live exactly while its resource or a surface naming it is, every count is one for its slot plus the sharing descriptions, and the upstream descriptions created are exactly those in use and those destroyed, each once and none of them both |
| ImageDescRuns.Conserved | forward-client.c:240-257 | no event loses an upstream description or brings a destroyed one back |
| ImageDescHistory.FieldsTold | forward.c:1765-1794 | told from the requests alone, in every run: a surface's pending description is that of its last set or unset, its committed one what was pending at its last commit, and a client holds a description from its creation to its destruction |
| ImageDescHistory.NoChangeLost | forward-client.c:544-556 | in every run an output that waits for no answer shows properties asked for no earlier than the last change, and one that waits will |
| ImageDescRuns.StepKeeps | forward.c:305-331 | every request and event keeps that invariant |
| ImageDescriptions.UnrefDesc | forward-client.c:240-257 | dropping a description drops exactly one reference of its record |
| ImageDescriptions.MovePlace | forward-client.c:299-302 | the pending to current hand-over moves the slot's reference without changing a count |
| ImageDescriptions.HandoverKeeps | forward-client.c:293-305 | completion or failure of a request, with a dirty restart, keeps the counts right |
| ImageDescriptions.DeleteKeeps | forward.c:1805-1821 | deletion happens only with the last use, and restores the invariant |
| ImageDescObjects.ColorForwarder.SetImageDesc | forward.c:1765-1780 | on the records themselves the surface's pending description is the requested one and lists the surface once, what it named before is freed if that was its last use, and the invariant is kept |
| ImageDescObjects.ColorForwarder.CommitImageDesc | forward.c:305-331 | the committed description of the record becomes the pending one, which outlives the release of the old; invariant kept |
| ImageDescObjects.ColorForwarder.DeleteIfUnreferenced | forward.c:1805-1821 | a record goes, with one reference of its properties, exactly if it has neither resource nor listing surface |
| ImageDescObjects.ColorForwarder.CreateImageDesc | forward.c:1944-1991 | a fresh record with empty lists, counted on its shared properties, all other records untouched |
| ImageDescObjects.ColorForwarder.UnsetImageDesc | forward.c:1781-1794 | the pending link of a surface is dropped, with whatever it was the last use of; invariant kept |
| ImageDescObjects.ColorForwarder.DescResourceDestroyed | forward.c:1822-1829 | the client gives a description up; it goes at once if no surface lists it; invariant kept |
| ImageDescObjects.ColorForwarder.DescriptionChanged | forward-client.c:544-556 | a change starts a request with fresh properties, or marks the one under way as outdated |
| ImageDescObjects.ColorForwarder.InfoSettled | forward-client.c:293-305 | the old properties lose a reference, the pending pointer becomes current, and a dirty state asks again with fresh properties |
| ImageDescObjects.ColorForwarder.DestroyColorSurface | forward.c:727-734 | both links of a dying surface are dropped, with whatever they were the last use of; invariant kept |
| ImageDescObjects.ColorForwarder.UnrefProps | forward-client.c:240-257 | the count in the record goes down, and the upstream description with the last reference |
| ShmPools.Sharing | forward.c:1149-1239 | in every run: one entry per file, counts equal to live nested pools, size the maximum ever requested, so valid nested ranges are valid upstream |
| ShmPools.GrowKeeps | forward.c:1149-1160 | growing raises the size to the maximum asked and never shrinks upstream |
| ShmHistory.SharedExactly | forward.c:1196-1213 | told from the requests alone, in every run: two live pools use the same upstream pool if and only if they are the same pool or were created over the same known file |
| ShmHistory.LargestAsked | forward.c:1149-1160 | and an upstream pool's size is the largest ever asked, at creation or by a resize, of the pools it has served |
| ShmPools.ShmForwarder.Find | forward.c:1198-1203 | the list walk finds the entry of the file, if any |
| ShmPools.ShmForwarder.CreateNested | forward.c:1179-1239 | pool creation takes the specified step on the list and the records: the file's entry is grown and shared, or a new one listed |
| ShmPools.ShmForwarder.ResizeNested | forward.c:1149-1160 | a resize grows the shared pool only upwards |
| ShmPools.ShmForwarder.DestroyNested | forward.c:1168-1178 | the last nested pool takes the upstream pool with it |
| FrameCallbacks.QueueHolds | forward.c:131-147 | in every run a surface's queue is exactly its requests still waiting, and each callback completes at most once |
| FrameCallbacks.BatchHolds | forward.c:437-461 | a commit's batch is exactly the surviving requests since the previous batch |
| FrameCallbacks.QueueOrder | forward.c:131-147 | and that in order, latest request first, which is also the order of the batch |
| FrameCallbacks.BatchKept | forward.c:188-198 | a batch loses only destroyed callbacks until it completes as a whole |
| FrameCallbacks.Orphaned | forward.c:707-713 | one event leaves a callback on no list exactly if it was on none, or ends the surface that has it queued |
| FrameCallbacks.OrphansExactly | forward.c:707-713 | in every run the undestroyed callbacks on no list are exactly those whose surface went while they waited for its next commit |
| FrameCallbacks.NeverCompleted | forward.c:188-198 | such a callback is completed in no state of the run, earlier or later |
| FrameCallbacks.OrphanArises | forward.c:707-713 | a concrete run with one |
| FrameCallbacks.StepKeeps | forward.c:126-147 | every event keeps callbacks in exactly one place |
| FrameObjects.FrameForwarder.SurfaceFrame | forward.c:131-147 | the callback's link joins the front of its surface's ring, every other ring unchanged |
| FrameObjects.FrameForwarder.CallbackDestroyed | forward.c:126-130 | the link leaves whatever ring it is on; unlinking one on no ring changes nothing |
| FrameObjects.FrameForwarder.HandOver | forward.c:437-461 | copying the head and re-aiming its two neighbours moves the whole ring into a new batch and leaves the queue empty |
| FrameObjects.FrameForwarder.FrameDone | forward.c:188-198 | the safe walk over the batch's ring completes its callbacks once each, in order, and the batch is freed |
| FrameObjects.FrameForwarder.SurfaceDestroyed | forward.c:707-713 | the same walk leaves every queued callback linked to itself |
| DiffCommits.Transparent | forward.c:231-331 | after every commit of any run, the upstream surface is what a client connected to the compositor directly would have, source rectangle aside, if and only if no destination has outlived its viewport object |
| DiffCommits.DestroyedViewportStays | forward.c:1601-1607 | a concrete run where it has |
| DiffCommits.MeaningExactly | forward.c:239-331 | from any upstream state, sending the differences equals sending everything if and only if the unchanged groups agree already |
| DiffCommits.SourceMirroredExactly | forward.c:255-267 | the whole surface is mirrored if and only if moreover the source rectangle was never used, or has outlived its viewport and the one before it was the default |
| DiffCommits.SourceExactly | forward.c:255-267 | one commit mirrors the source if and only if it was mirrored and is unchanged |
| DiffCommits.LeftoverStays | forward.c:235-238 | state left by a previous client survives a default commit of the next |
| DiffCommits.ReplayRep | forward.c:269-303 | recreating the representation and setting the present fields gives exactly the pending representation |
| DiffCommits.DiffSurface.ApplyPendingUpdates | forward.c:239-331 | the handler sends exactly the differences and makes committed equal to pending |
| Clocks.MsSinceBounds | main.c:2107-2112 | truncating subtraction is within 1 ms of the elapsed time, exactly floor or ceiling by the sign of the nanosecond part |
| Clocks.MsSinceMonotone | main.c:2107-2112 | for normalised readings it is monotone |
| Pausing.HiddenExactly | main.c:2162-2184 | a client counts as hidden if and only if an output waited the whole time-out, none completed a frame within it, and no output waits for less |
| Pausing.FirstSecondMissed | main.c:2162-2184 | a history whose last completion, 100 ms ago, is missed exactly if the clock is in its first second |
| Pausing.StopJustified | main.c:2196-2205 | a group is newly paused only by a check that found that |
| Pausing.StopsExactly | main.c:2196-2205 | a group is stopped or woken by a check according to what the history of its outputs says, woken by a completed frame and by the general resume, unless the signal fails, and changed by nothing else |
| Pausing.RunOwners | main.c:2209-2228 | in every run an output belongs to the client assigned last, until that is cleaned up, and a client has a group from its spawn to its clean-up |
| Pausing.WatchRecords | forward.c:177-186 | the recorded times are those of the oldest request since the last completion on the output, and of that completion |
| Pausing.WaitedNs | main.c:2162-2184 | the time-out in nanoseconds, to within a millisecond |
| Pausing.StaysHidden | main.c:2162-2184 | without new events on its outputs a hidden client is found hidden by every later check |
| Pausing.DoneResumes | forward.c:177-186 | a completed frame resumes the owner unless the signal fails |
| Pausing.TracesAlternate | main.c:2114-2127 | in every run each group's signals alternate beginning with a stop, and `paused` holds exactly while the last was a stop |
| Pausing.NoneLeftStopped | main.c:2209-2213 | no group whose record was freed is left stopped unless that signal failed |
| Pausing.CleanupResumes | main.c:2209-2213 | a freed group stays stopped exactly if it was stopped and could not be signalled |
| Pausing.ExitResumes | main.c:2131-2136 | the same for the exit of the main loop and clientless mode |
| PauseClients.BgClient.SetClientPaused | main.c:2114-2127 | the record and its signal trace change as specified |
| PauseClients.WatchedOutput.RequestUpstreamCallback | forward.c:448-452 | only the first outstanding callback starts the clock |
| PauseClients.Server.FrameDone | forward.c:181-186 | the completion handler updates the output and resumes its owner |
| PauseClients.Server.ClientIsHidden | main.c:2162-2184 | the loop returns exactly "some output stale and none visible" |
| PauseClients.Server.HiddenCheck | main.c:2196-2205 | each client is paused or resumed by what the check finds |
| PauseClients.Server.ResumeAllClients | main.c:2131-2136 | every client is resumed |
| PauseClients.Server.CleanupClient | main.c:2209-2228 | the client is resumed, unlisted and forgotten by its output |
| FdLoops.CalledRightly | loop.c:97-110 | in every run a callback runs only with the descriptor it was registered for and never after its removal |
| FdLoops.PassCalls | loop.c:90-110 | a pass calls a registration at most once, at its turn, and exactly if it has not been removed by then and poll() set a bit of the mask it was registered with, the hang-up bit 0x10 or the error bit 0x08; registrations made meanwhile are not called |
| FdLoops.OutsideAdd | loop.c:147-167 | registering lists a new entry with that mask |
| FdLoops.StillListed | loop.c:112-121 | in every run each registration that was not removed is listed |
| FdLoops.RemoveExactly | loop.c:194-205 | removal takes out the live registration if and only if no removed entry for the descriptor waits ahead of it |
| FdLoops.StaleArises | loop.c:147-167 | that arises only by registering a descriptor while a removed entry for it waits |
| FdLoops.RemoveCanMiss | loop.c:194-205 | a concrete sequence in which a removal misses |
| FdLoops.PassForgets | loop.c:112-121 | a pass leaves no removed entry behind |
| FdLoops.PassInv | loop.c:90-121 | array and list stay aligned through a pass |
| FdLoops.FdArrayLoop.LoopAddFd | loop.c:147-167 | the array grows by ten when full and both sequences gain one aligned entry |
| FdLoops.FdArrayLoop.LoopRemoveFd | loop.c:194-205 | the first entry with the descriptor is marked |
| FdLoops.FdArrayLoop.DispatchFds | loop.c:96-110 | the walk, which may reach appended entries, has the effect of visiting the entries there at the start |
| FdLoops.FdArrayLoop.FreeRemoved | loop.c:112-121 | in-place compaction keeps exactly the unremoved entries and their slots, in order |
| FdLoops.FdArrayLoop.LoopPoll | loop.c:65-121 | the descriptor half of one poll |
| Timers.FiresOnce | loop.c:123-144 | in every run a timer fires at most once, strictly after its expiry, and never after its removal |
| Timers.PassDecides | loop.c:123-144 | a pass fires a listed timer, at its turn, exactly if more than the delay it was added with has gone by and it was not cancelled by then; it leaves the others listed and never visits timers added meanwhile |
| Timers.StillListed | loop.c:123-144 | in every run a timer that has neither fired nor been cancelled is listed, so a pass will decide it |
| Timers.OutsideOps | loop.c:169-216 | adding lists a new timer, cancelling marks a listed one and changes nothing else |
| Timers.ExpiryExact | loop.c:169-192 | expiry is exactly now + ms for every ms, and normalised exactly if the nanoseconds do not go negative |
| Timers.TimerMsExactly | loop.c:74-76 | the computed wait is within 1 ms of the remaining time if and only if that fits an int |
| Timers.DelayFits | loop.c:169-192 | it fits for every non-negative int delay until the timer is INT_MAX ms overdue |
| Timers.VisitTail | loop.c:128-143 | whatever a callback adds or cancels, everything listed behind the current timer stays in place |
| Timers.TimerLoop.LoopAddTimer | loop.c:169-192 | the timer goes to the head of the list with that expiry |
| Timers.TimerLoop.LoopRemoveTimer | loop.c:207-216 | a listed timer is marked, any other address ignored |
| Timers.TimerLoop.DispatchTimers | loop.c:123-144 | the pointer walk visits exactly the timers listed at its start, in order |
| Timers.TimerLoop.PollTimeout | loop.c:66-84 | the minimum over all timers, clamped to 0 and INT_MAX |
| Rfc3629.DecodeEncode | unicode.c:29-54 | decoding by section 3 of RFC 3629 inverts the encoder exactly on the scalar values |
| Rfc3629.EncodeDecode | unicode.c:29-54 | only the encoder's output is decoded |
| Rfc3629.DecodeEncodeAll | unicode.c:29-54 | a string of scalar values is read back from its bytes |
| Unicode.LastSizeEncode | unicode.c:6-16 | the backward scan finds the size of the last character, for every 32-bit value |
| Unicode.Utf8Encode | unicode.c:29-54 | the loop writes exactly the encoding and nothing else |
| Unicode.Utf8LastSize | unicode.c:6-16 | the scan from the terminator returns that size |
| Passwords.HoldsBackspace | password.c:28-35 | cutting the last character leaves the encoding of the shorter stack, terminated |
| Rfc3629.HoldsUnique | password.c:15-47 | a buffer stands for one string of scalar values only |
| Passwords.FirstNul | password.c:15-47 | `buffer[len]` is the first NUL |
| Passwords.Password.AppendCh | password.c:37-47 | a character is pushed if it fits below the last two bytes, else nothing changes |
| Passwords.Password.BackspaceCh | password.c:28-35 | exactly the last character is popped |
| Passwords.Password.ClearPasswordBuffer | password.c:15-26 | every byte of the buffer is zero and the stack empty |
| Passwords.Password.Apply | password.c:15-47 | after any edits the buffer is the UTF-8 of the stack |
| PasswordTimers.OwnersAlwaysOk | password.c:49-108 | in every run each owner field is empty or names a live unremoved timer with that callback, no such timer is unowned, and no verdict, lit indicator or typed password outlasts its timer |
| PasswordTimers.KeyOk | password.c:137-218 | every key keeps that |
| PasswordTimers.SubmitOk | password.c:110-129 | submitting keeps it, whether or not the write succeeds |
| PasswordTimers.CallbackOk | password.c:49-61 | each of the three callbacks keeps it while its timer is still listed |
| PasswordHistory.EditorTold | password.c:137-218 | told from the inputs alone, in every run: keys append, take back, wipe or submit, ten seconds without a key wipe the password, three seconds take a verdict back, a refusal shows one and counts; the stack, the verdict, the failures and the passwords sent are exactly that |
| PasswordHistory.GoesOutExactly | password.c:110-147 | a request goes out exactly at Enter or Ctrl with M, D or J, unless the stack is ignored as empty, a verdict is awaited or the pipe fails, and what goes out is the stack then |
| PasswordHistory.NothingElseGoesOut | password.c:110-129 | no reply, timer or other code sends one |
| PasswordHistory.DispatchFollows | password.c:49-108 | the timer objects keep the two time-outs |
| PasswordEditors.EditorState.HandleKeyPress | password.c:137-218 | the key handler takes the specified step on the fields and the buffer |
| PasswordEditors.EditorState.SubmitPassword | password.c:110-129 | submission takes the specified step, and when it goes ahead every byte of the buffer is zero afterwards |
| PasswordEditors.EditorState.ClearPasswordNow | password.c:86-93 | the wiping callback zeroes the whole buffer and re-arms the indicator's timer |
| Comm.RepliesMatch | pam.c:109-138 | for every interleaving and split of reads and writes, the backend reads exactly the submitted passwords in order and the k-th answer is the verdict on the k-th |
| Comm.UnlocksOnce | main.c:1469-1483 | the lock ends exactly with the first positive answer, failures count the negative ones, and no request is answered after it |
| Comm.NeverStuck | comm.c:14-56 | neither side blocks while a submitted request is unread |
| Comm.WantedWithin | comm.c:58-80 | a reader of a frame cut anywhere never asks past its end and stops just there |
| Comm.SizeRoundTrip | comm.c:58-65 | the size header is read back |
| CommPipes.ReadEnd.ReadFull | comm.c:14-36 | the whole size, or nothing at the end of the stream, or an error only after a failed read or a truncated stream |
| CommPipes.WriteEnd.WriteFull | comm.c:38-54 | the whole buffer, or a proper prefix and an error only after a failed write |
| CommPipes.WriteCommRequest | comm.c:120-141 | the frame or a part of it goes out, and the password is wiped in either case |
| CommPipes.ReadCommRequest | comm.c:56-80 | the next password with its terminator, the end of the stream, or an error, also when the stream ends inside a request |
| CommPipes.RunBackend | pam.c:109-138 | passwords are asked in order and answered one by one up to the first success; without a failed call it fails only if the stream ends inside a request and every one before it was answered with a failure |
| CommPipes.LockScreen.CommIn | main.c:1469-1483 | a positive reply clears `run_display`, a negative one counts a failure and shows it |
| GrowableArrays.NextPowerOfTwo | forward-client.c:7-17 | the least power of two holding n elements, without overflow |
| GrowableArrays.ReallocatesExactly | forward-client.c:19-29 | an append reallocates if and only if the array is empty or its length a power of two |
| GrowableArrays.TightUnique | forward-client.c:7-17 | that capacity is determined by the length |
| GrowableArrays.GrowableArray.AddOneElement | forward-client.c:19-29 | one more element in bounds, contents kept, capacity recomputed |
| GrowableArrays.GrowableArray.Append | forward-client.c:32-36 | refines sequence append |
| Pixels.PremulRounds | cairo.c:98-100 | the shifted product is the one integer with abs(255x - colour*alpha) at most 127, and at most alpha and colour |
| Pixels.Convert | cairo.c:57-121 | for every width, height and stride each target pixel comes from its own source pixel and no byte between rows changes |
| Pixels.RgbRow | cairo.c:61-79 | one three-channel row, the fourth byte of each pixel untouched |
| Pixels.RgbaRow | cairo.c:102-120 | one premultiplied row |

## Left out

- libwayland, cairo drawing, xkbcommon, PAM, D-Bus, memory locking, process spawning, configuration parsing and `render.c` drawing: events, trace entries or uninterpreted verdicts here.
- Allocation failures, fractional scale, dmabuf forwarding, wl_drm and data-device stubs, the sleep watcher and pointer hysteresis: no state that outlasts one request.
- Wrapping of 32-bit serials: upstream serials are unbounded, and `LockSerials` speaks of runs of fewer than 2^32 plugin serials.
- An ack on a layer surface whose wl_surface the client has destroyed: the handler dereferences a null pointer there; the model ignores the request.
- One lock surface at a time: the walk of clientless mode over all surfaces is modelled for each one, and serials that other outputs take from a shared client are an event.
- Errors of the compositor on a state it does not allow (a scale that is not positive, a source rectangle outside the buffer): such a commit has no size in the model, and the run goes on.
- A protocol error posted on a viewport object that the client has destroyed, which dereferences a null pointer.
- Subsurfaces of subsurfaces in the replay: the upstream parent is only known for layer surfaces, so `SubsurfaceReplay` keeps one level; the forest is general.
- Desynchronised and synchronised application of subsurface state: forwarded, not given a meaning.
- SubsurfaceTree.Legal: a place request that names its own surface fails an assertion and ends the run; surfaces are live when named.
- Subsurface requests, buffers and image descriptions keep their lists as sequences in the records; the pointer level of the list operations is `WlList`, `Stacking` and `FrameObjects`.
- ImageDescRuns.Lifetimes: the `info_request` pointer and the contents of property records are not modelled.
- BufferGraph.Lifetimes: buffer contents, damage, offsets and release events are not modelled.
- DiffCommits.Transparent: damage and buffer offsets are replayed in full by the program and are not modelled; the extension objects are assumed present when a client uses them.
- Pausing.NoneLeftStopped: `kill` failing is an input; why it failed is not modelled, and process ids are not reused.
- Timers and FdLoops let callbacks add and remove entries arbitrarily, fixed per pass; a callback that destroys the loop itself is not modelled.
- A limit of one outstanding password request: the timer that resets the verdict also ends the "validating" state while a request is in flight, so answers are matched in order instead.
- Comm.RepliesMatch: a write that fails for good ends the exchange there; what a reader makes of half a frame is `CommPipes.RunBackend`.
- Unicode.Encode: bit operations are written as arithmetic on disjoint bits.
- Pixels.Convert: little-endian byte order only.
- GrowableArrays.GrowableArray.AddOneElement: new elements are arbitrary instead of uninitialised memory; byte sizes and their overflow assertion are left out.
