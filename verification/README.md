# garnd: a model of the daemon's shared memory, environments and reloads

garnd hands out named mutexes in shared memory. Clients connect to a *welcome thread*, which puts
each of them into a named *environment*; every environment is one *synchronization thread* with its
own shared-memory allocator. Signals ask the daemon to shut down or to reload, and a circuit breaker
kills a daemon that reloads too often. This project models four parts of it and proves what they
guarantee over every input, every run and every interleaving.

`dafny verify dfyconfig.toml` checks the whole project.

## The parts

**Shared memory** (`Alignment`, `ShmHeap`, `Allocator`, `SpaceBound`, `ClosedForm`, `OpenMutex`,
`Destruction`). `Allocator.ShmAllocator` is the object with the fields the daemon's allocator has,
updated in place. Each of its methods is proved against an operation on the heap as a value
(`ShmHeap`), which also carries the history of all slots ever carved, those of failed constructors
included. About that value it is proved that all slots lie inside their page, are aligned as absolute
addresses and never share a byte; that failures change nothing but, at most, one lost slot; that next
fit makes each two pages hold at least a byte more than one page, and so wastes less than half of all
pages but the newest, with resources for every number of pairs that use exactly as little; where the
n-th of equal resources lies; that opening mutexes is a write-once map; and that the destructor destroys
every resource exactly once, for any drain order.

**Environments** (`EnvironmentProtocol`, `EnvironmentInvariant`, `WelcomeSteps`, `OwnerSteps`,
`CloseHistory`, `RequestHistory`, `EnvironmentTheorems`). A transition system of the welcome thread and one thread per environment ever
created, in which a channel operation, an event write, an event read and a join are separate steps.
An environment is identified by its generation, so that a name left behind by an old environment can
be told from one of a newer environment of that name.

**Descriptors** (`SocketSet`, `Descriptors`, `DescriptorInvariant`, `OpenFiles`,
`RegistrationInvariant`, `DescriptorTheorems`, `DescriptorWindow`). The same hand-over once more, with descriptor numbers that
the kernel reuses at any time, open files, and the epoll instance, whose registrations live as long as
the open file does. The duplicate made by the welcome thread makes this differ from the life of the
descriptor. The two transition systems are linked by two facts, not by a refinement: that a report
leaves out no special event, assumed of a batch in `EnvironmentProtocol`, is proved here (`ReportFits`),
and that an environment dropped for a failed creation has not registered the client still held, a
condition of the drop step here, is proved there (`FailedCreationHasNoClient`).

**Reloads** (`CircuitBreaker`, `SignalEvents`, `ReloadControl`, `ReloadInvariant`, `ReloadTheorems`,
`ReloadCauses`).
The breaker's three statics as an object and their meaning over histories of any length; the two
signal eventfds, recycled by every setup; and a transition system of main, the welcome thread of the
current incarnation, and signals delivered between any two steps.

## What does not hold as one might expect

* *198 reloads in four seconds.* The breaker lets at most 99 reloads through per epoch, and a window
  shorter than four seconds can touch two epochs, so 198 is an upper bound
  (`CircuitBreaker.WindowBound`). It is reached (`BootBoundIsReached`) only by a window that begins
  with the very first reload, less than four seconds after boot, in the epoch the statics start in.
  Any other epoch is opened by a reload of its own, and for every other window the exact bound is 197
  (`LaterBoundIsReached`).
* *The epoll instance watches the sockets and two special events.* This fails while the welcome thread
  still holds the client descriptor of a socket that the environment thread has registered and already
  closed: closing one of two duplicates does not deregister the open file. `DescriptorWindow` is a run
  that gets there, with one socket and four registrations. The equality holds if and only if the
  state is not in that window, and in the window there is exactly one registration too many
  (`DescriptorTheorems.RegistrationsAreExact`). A later report of such a descriptor finds no member of
  the set and is harmless (`HangUpsAreSafe`). In the window neither special event can be on: no new
  socket is waiting (`RequestsFallOutsideTheWindow`), and an environment is dropped only while the
  welcome thread holds no client of it (`DropsFallOutsideTheWindow`). So the buffer holds a report of
  everything that is ready whenever a special event is on, and never crowds one out (`ReportFits`).
* *A name in the close channel belongs to an environment of the map.* It need not, for two reasons: a
  creation that fails announces its closing, too (`OrphanIsDrainedBeforeRecreation`), and the client of
  one that succeeds may hang up before `insert_socket` has returned (`HangUpOvertakesCreation`). In
  every state a queued name is in the map if and only if the creation of its sender has returned Ok, and
  a drained one has removed its sender if and only if it had; each generation is drained once at most
  (`QueuedNamesAreExact`, `RemovalsHitTheirSender`). What makes this safe is that a name left behind is
  drained before the next environment can be opened.
* *The alignment error.* Since a type's size is a multiple of its alignment, an alignment above the
  page size is reported as "too large" unless the type has size zero (`ShmHeap.ErrorsExactly`).

## Assumptions

* The page size is a power of two; a mapping starts at a multiple of it and overlaps no other; a new
  page's descriptor is different from those of the other pages.
* For every type the alignment is a power of two and the size a multiple of it ("Size and Alignment"
  in the Type Layout chapter of the Rust Reference).
* The monotonic clock never runs backwards; its seconds are non-negative and its nanoseconds below 10^9.
* Reading and writing an eventfd does not fail, and a counter does not overflow. Epoll is
  level-triggered, reports a registration at most once in a batch, and leaves out nothing that is ready
  as long as the buffer has room. A late report of a socket the thread has closed already carries the
  hang-up flag, since only the hang-up made the thread close it.
* Threads do not panic, except where the code unwraps a disconnected channel; that case is a state of
  the model and proved unreachable.

## Model

| member | source | states |
|---|---|---|
| `Alignment.AlignUp` | src/linux/shm_allocator.rs:222-226 | the aligned pointer is a multiple of the alignment, not below the free pointer and less than one alignment above it |
| `Alignment.AlignUpLeast` | src/linux/shm_allocator.rs:222-226 | no aligned address between the free pointer and the aligned one is passed over |
| `Alignment.SmallerPowerDivides` | src/linux/shm_allocator.rs:90-95 | an alignment that passes the check divides the page size |
| `Alignment.RefusedOnlyWhenFull` | src/linux/shm_allocator.rs:221-231 | a lookup is refused exactly when the bytes behind the unaligned pointer are too few, so padding alone never costs a page; no sum in it exceeds two pages |
| `ShmHeap.FreshPageFits` | src/linux/shm_allocator.rs:103-107 | the lookup after a page creation succeeds at offset 0 |
| `ShmHeap.ConstructCases` | src/linux/shm_allocator.rs:65-160 | a call either leaves the whole heap as it was, or carves one slot after at most one new page, created only if there is none or too few bytes are left; the unwrap never fails |
| `ShmHeap.ConstructDelta` | src/linux/shm_allocator.rs:97-108 | seen from outside, a call adds no slot or one, on the newest page at the aligned pointer or at the start of a fresh page |
| `ShmHeap.ConstructKeepsInv` | src/linux/shm_allocator.rs:65-160 | every slot stays in its page, aligned and behind its predecessors, and the name table stays one to one with the slots whose constructor succeeded |
| `ShmHeap.RunKeepsInv` | src/linux/shm_allocator.rs:65-160 | the same over any sequence of calls |
| `ShmHeap.SlotsAreDisjoint` | src/linux/shm_allocator.rs:107-126 | two slots share no byte, on one page or on two |
| `ShmHeap.EverySlotIsSafe` | src/linux/shm_allocator.rs:80-160 | in every reachable heap each slot ever carved lies inside its mapping, at an absolute address that is a multiple of its alignment, and apart from all others |
| `ShmHeap.FailureIsAtomic` | src/linux/shm_allocator.rs:74-138 | a refused check or failed page creation changes nothing; a failed constructor leaves names, pages and earlier slots alone; a success binds exactly its own name to the place it reports |
| `ShmHeap.ErrorsExactly` | src/linux/shm_allocator.rs:74-138 | when each error is returned, if and only if, in terms of the unaligned free pointer |
| `ShmHeap.KernelAnswersAreKept` | src/linux/shm_allocator.rs:182-219 | a new page is the very one the kernel mapped, descriptor and address, behind the old ones; an error of the kernel or of the constructor is passed on unchanged |
| `ShmHeap.FindsWhatIsHeld` | src/linux/shm_allocator.rs:162-180 | a lookup finds nothing if and only if no slot holds that name, a mismatch if and only if one of another type does, and otherwise the place of that slot and its page's descriptor |
| `ShmHeap.ConstructedIsFound` | src/linux/shm_allocator.rs:140-180 | what was constructed is found at the place reported, by its own type and no other |
| `Allocator.ShmAllocator.constructor` | src/linux/shm_allocator.rs:57-62 | a new allocator has no page, no name and satisfies the invariant |
| `Allocator.ShmAllocator.New` | src/linux/shm_allocator.rs:50-63 | fails exactly when the page size is zero, unknown or cannot be queried, with the error that says which |
| `Allocator.ShmAllocator.CreateNewPage` | src/linux/shm_allocator.rs:182-219 | appends the mapped page and resets the free pointer, or reports the kernel's error and changes nothing |
| `Allocator.ShmAllocator.ReserveSlot` | src/linux/shm_allocator.rs:101-107 | lookup, new page, second lookup: the offset is always there to unwrap, and an error leaves the object unchanged |
| `Allocator.ShmAllocator.Place` | src/linux/shm_allocator.rs:108-159 | the free pointer moves before the constructor is called, the name is recorded only if it succeeds |
| `Allocator.ShmAllocator.CheckAndConstruct` | src/linux/shm_allocator.rs:74-159 | checks, first page, slot and constructor, in this order, in place: exactly the heap's construct step, whatever state the object is in |
| `Allocator.ShmAllocator.ConstructInShm` | src/linux/shm_allocator.rs:65-160 | the object makes exactly the heap's construct step, about which the theorems are proved, and stays valid |
| `Allocator.ShmAllocator.FindResource` | src/linux/shm_allocator.rs:162-180 | answers from the table without changing it; the page it indexes always exists |
| `Allocator.ShmAllocator.DrainResources` | src/linux/shm_allocator.rs:238-256 | whatever the order, each name is drained once with one destructor call at its own address, and the panic kept is the first |
| `Allocator.ShmAllocator.UnmapPages` | src/linux/shm_allocator.rs:257-263 | one unmap attempt for each page |
| `Allocator.ShmAllocator.Drop` | src/linux/shm_allocator.rs:234-271 | the effects are the specified log for some enumeration of the names, for any set of panicking destructors |
| `Destruction.FirstPanic` | src/linux/shm_allocator.rs:238-255 | the panic kept comes from a panicking destructor, and all destructors drained before it returned |
| `Destruction.LogShape` | src/linux/shm_allocator.rs:234-271 | all destructors come before all unmaps, one unmap per page, and then the first panic in drain order is resumed, or reported if already unwinding, if and only if there was one |
| `Destruction.EveryResourceDestroyedOnce` | src/linux/shm_allocator.rs:234-256 | destructor calls and successfully constructed slots match one to one, each call at the slot's absolute address |
| `SpaceBound.PagesBoundedByCarvedBytes` | src/linux/shm_allocator.rs:97-108 | for any requests, with P pages and U bytes carved, floor(P / 2) * (page size + 1) <= U, and so P <= 1 or (P - 1) * page size < 2U |
| `SpaceBound.PagesBoundedByRequestedBytes` | src/linux/shm_allocator.rs:97-108 | without zero-sized resources padding is paid for as well: with f bytes filled of the newest page and R bytes requested, (P - 1) * (page size + 1) + f <= 2R |
| `SpaceBound.BoundIsTight` | src/linux/shm_allocator.rs:97-108 | for every m there are requests that use 2m pages for exactly m * (page size + 1) bytes, so the bound on U is attained at every page size |
| `ClosedForm.NthSlot` | src/linux/shm_allocator.rs:97-108 | with one layout of size s > 0 and k = page size / s, the n-th slot carved is on page n / k at offset (n mod k) * s, whatever constructors and page creations fail in between |
| `OpenMutex.HandleOpenMutex` | src/linux/environment_synchronization_thread.rs:238-258 | find, and construct if not found, on the allocator object: exactly the open step on the heap |
| `OpenMutex.MissAnswersExactly` | src/linux/environment_synchronization_thread.rs:243-258 | for a name not opened before the answer is, in terms of the request itself, the kernel's error, the constructor's error, or the place of a new slot of the mutex's layout with the newest page's descriptor |
| `OpenMutex.OpenRefines` | src/linux/environment_synchronization_thread.rs:238-258 | an open is one step of a write-once map from names to locations; name in use, type mismatch and the unwrap panic are unreachable |
| `OpenMutex.ServeRefines` | src/linux/environment_synchronization_thread.rs:238-258 | any sequence of requests answers exactly as the write-once map does |
| `OpenMutex.WriteOnceIsStable` | src/linux/environment_synchronization_thread.rs:248-257 | in a write-once map a name once bound keeps its value, and every later request is answered with it |
| `OpenMutex.NamesApart` | src/linux/environment_synchronization_thread.rs:248-257 | two names never share a byte of shared memory |
| `OpenMutex.AnswersAreStable` | src/linux/environment_synchronization_thread.rs:238-258 | from the empty allocator on: once a name was opened every later request for it gets the same page, offset and descriptor; answers for different names are disjoint; only kernel, sizes and constructor can cause errors |
| `CircuitBreaker.SecondsSinceIsFloor` | src/linux/circuit_breaker.rs:20-25 | the borrow yields the whole seconds elapsed, with no i64 overflow, and the test succeeds exactly from four seconds on |
| `CircuitBreaker.Statics.constructor` | src/linux/circuit_breaker.rs:7-9 | the initial statics describe the empty history |
| `CircuitBreaker.Statics.CircuitBreaker` | src/linux/circuit_breaker.rs:13-37 | on the three statics: the process dies exactly if the clock fails or the breaker trips on the history so far, and otherwise the reload joins it |
| `CircuitBreaker.EpochHasShape` | src/linux/circuit_breaker.rs:25-36 | what the statics mean: the count is the number of reloads since the epoch began, all within four seconds of its start, which is the time of its first reload or boot |
| `CircuitBreaker.WindowBound` | src/linux/circuit_breaker.rs:20-36 | over any non-decreasing clock, a window shorter than four seconds holds at most 198 surviving reloads, and at most 197 unless it begins with the first reload of all and that one came less than four seconds after boot |
| `CircuitBreaker.BootBoundIsReached` | src/linux/circuit_breaker.rs:7-36 | a history with 198 surviving reloads within one second |
| `CircuitBreaker.LaterBoundIsReached` | src/linux/circuit_breaker.rs:20-36 | a history starting long after boot with 197 surviving reloads within one second |
| `CircuitBreaker.TripsExactly` | src/linux/circuit_breaker.rs:24-34 | the breaker trips if and only if the reload is the hundredth of its epoch and less than four seconds after the epoch's start |
| `CircuitBreaker.TripHasCause` | src/linux/circuit_breaker.rs:24-34 | behind every trip there are a hundred calls, this one included, within less than four seconds |
| `CircuitBreaker.SparseHistorySurvives` | src/linux/circuit_breaker.rs:24-36 | a history with no hundred calls in any four seconds never trips |
| `CircuitBreaker.QuietResets` | src/linux/circuit_breaker.rs:25-30 | after four quiet seconds the next reload survives and opens an epoch |
| `EnvironmentInvariant.EnvStepLocal` | src/linux/environment_synchronization_thread.rs:57-194 | each step of an environment thread keeps: one announcement at most, a running environment that had a client has one, remaining events of a batch are still true, one wait at most after the drop event |
| `EnvironmentInvariant.EnvStepRole` | src/linux/environment_synchronization_thread.rs:100-194 | each step of an environment thread keeps what the welcome thread may rely on in each phase of a request or a drop |
| `WelcomeSteps.DrainKeepsInv` | src/linux/welcome_thread.rs:95-115 | draining one name, which may drop an environment, keeps the invariant of the whole system |
| `WelcomeSteps.OpeningKeepsInv` | src/linux/welcome_thread.rs:231-257 | opening an environment, old or new, keeps it |
| `WelcomeSteps.StopsKeepsInv` | src/linux/welcome_thread.rs:66-92 | leaving the loop, which drops the close channel's receiver before the environments, keeps it |
| `OwnerSteps.HandOverKeepsInv` | src/linux/environment.rs:61-62 | sending the socket and writing the event keep it |
| `OwnerSteps.RecvKeepsInv` | src/linux/environment.rs:63-63 | receiving the answer, or finding the thread gone, keeps it |
| `OwnerSteps.DropKeepsInv` | src/linux/environment.rs:67-77 | writing the drop event and giving up the channel ends keep it |
| `OwnerSteps.JoinKeepsInv` | src/join_guard.rs:19-37 | the join keeps it, and is left only once the thread has ended |
| `OwnerSteps.StepKeepsInv` | src/linux/welcome_thread.rs:57-152 | every step of every thread keeps the invariant |
| `OwnerSteps.RunKeepsInv` | src/linux/welcome_thread.rs:57-152 | the invariant holds in every state of every interleaving |
| `CloseHistory.StepKeepsHistory` | src/linux/welcome_thread.rs:95-115 | every step keeps: an environment of the map was created and not drained, one being created was neither, and no generation is queued after it was drained |
| `CloseHistory.RunKeepsHistory` | src/linux/welcome_thread.rs:57-152 | the same in every state of every interleaving |
| `EnvironmentTheorems.RemovalsHitTheirSender` | src/linux/welcome_thread.rs:102-106 | a drained name removed the very generation that sent it if its creation had returned Ok, and nothing otherwise, never a newer environment of that name |
| `EnvironmentTheorems.QueuedNamesAreExact` | src/linux/welcome_thread.rs:231-257 | a queued name is in the map if and only if the creation of its sender has returned Ok, and then it stands for its sender; each generation is drained once at most |
| `EnvironmentTheorems.WakeupsAreNotLost` | src/linux/environment_synchronization_thread.rs:278-291 | a queued name has its event on, or its sender between send and write, or the welcome thread in its drain |
| `EnvironmentTheorems.EndedResidentsAreQueued` | src/linux/welcome_thread.rs:94-115 | while the loop runs, an environment of the map whose thread has ended has its name queued, so no dead entry stays |
| `EnvironmentTheorems.EveryEndIsAccountedFor` | src/linux/environment_synchronization_thread.rs:59-157 | in the loop the sockets are exactly those registered and not hung up, and one at least once there was any; one announcement at most, no panic, and each end is exactly one of: all registered sockets hung up, init or wait failed (both announced), dropped by the owner (unannounced); at most one wait begins after the drop event |
| `EnvironmentTheorems.HangUpTakesOne` | src/linux/environment_synchronization_thread.rs:129-140 | a hang-up takes out the socket it is about and no other, and ends the loop if and only if none is left |
| `RequestHistory.RequestOpensItsName` | src/linux/welcome_thread.rs:142-149 | a request goes to the environment the map has for the full name, or to a new one of that name if there is none, and changes nothing else |
| `RequestHistory.RunKeepsRequests` | src/linux/welcome_thread.rs:57-152 | over every interleaving: each request was answered by an environment of the name asked for; a client seen by a poll is accepted before the next poll; each environment's closing ends one poll at most |
| `EnvironmentTheorems.ThreadsDoNotOverlap` | src/join_guard.rs:19-37 | never two running threads for one name, and none when the welcome thread is done |
| `EnvironmentTheorems.AnswersMatchRequests` | src/linux/environment.rs:60-64 | insert_socket returned Ok if and only if its own socket was registered by that environment's thread; at most one socket is queued and one answer outstanding, about the socket being waited for |
| `EnvironmentTheorems.EveryInterleavingIsSafe` | src/linux/welcome_thread.rs:57-152 | all of the above in every state of every interleaving of any number of environments |
| `EnvironmentTheorems.WelcomeCanMove` | src/linux/welcome_thread.rs:57-152 | outside of its poll the welcome thread always has a step, unless it waits for an environment thread's answer or end |
| `EnvironmentTheorems.BlockedCanMove` | src/linux/environment.rs:60-77 | whenever the welcome thread is blocked in insert_socket or in a join, the thread it waits for can take a step |
| `EnvironmentTheorems.BlockedAdvances` | src/linux/environment.rs:60-77 | each such step ends the wait or lowers a rank |
| `EnvironmentTheorems.WaitsAreBounded` | src/linux/environment.rs:60-77 | in every interleaving the wait ends after at most rank many steps of that thread |
| `EnvironmentTheorems.FailedCreationHasNoClient` | src/linux/welcome_thread.rs:243-247 | an environment dropped for a failed creation has not registered the socket whose client the welcome thread still holds |
| `EnvironmentTheorems.CreationFails` | src/linux/environment_synchronization_thread.rs:59-65 | a reachable state in which a failed creation has announced itself while insert_socket is waiting for it |
| `EnvironmentTheorems.OrphanIsDrainedBeforeRecreation` | src/linux/welcome_thread.rs:95-115 | a reachable state in which a name without an environment was drained, removing nothing, before that name was opened again |
| `EnvironmentTheorems.HangUpOvertakesCreation` | src/linux/environment_synchronization_thread.rs:129-138 | a reachable state in which the name of an environment is queued whose creation has not failed but has not returned yet, so that it is not in the map |
| `SocketSet.SocketSet.constructor` | src/linux/environment_synchronization_thread.rs:321-325 | a new set holds nothing and has closed nothing |
| `SocketSet.SocketSet.Insert` | src/linux/environment_synchronization_thread.rs:331-333 | takes the descriptor in exactly if its number is new, and keeps taken = held + closed |
| `SocketSet.SocketSet.Remove` | src/linux/environment_synchronization_thread.rs:335-343 | closes the descriptor exactly if the set holds it, and keeps taken = held + closed |
| `SocketSet.SocketSet.Drop` | src/linux/environment_synchronization_thread.rs:350-358 | afterwards every descriptor taken in has been closed exactly as often as it was taken in, in whatever order |
| `DescriptorInvariant.StepKeepsTable` | src/linux/environment_synchronization_thread.rs:316-358 | each descriptor ever opened is open under one number or was closed once, though numbers are reused |
| `DescriptorInvariant.StepKeepsOwners` | src/linux/welcome_thread.rs:226-257 | at each step of the hand-over a descriptor has exactly one owner and the owners agree with the kernel's table |
| `DescriptorInvariant.StepKeepsDrop` | src/linux/environment.rs:67-77 | from the drop event's write until the thread leaves its loop, the welcome thread holds no client that this environment has registered |
| `OpenFiles.StepKeepsFresh` | src/linux/welcome_thread.rs:226-257 | a client's open file is registered only once its duplicate is taken from the channel, and that duplicate is the one handed over |
| `OpenFiles.StepKeepsFiles` | src/linux/welcome_thread.rs:226-257 | two descriptors share an open file only while the welcome thread holds the client; a registered file belongs to the set or to that client, and never to a special event |
| `RegistrationInvariant.ClosingKeepsRegs` | src/linux/environment_synchronization_thread.rs:335-343 | a close removes a registration exactly if it was the open file's last descriptor; what stays behind belongs to the held client |
| `RegistrationInvariant.StepKeepsRegs` | src/linux/environment_synchronization_thread.rs:78-182 | each step keeps: every registration is a special event's, a member's, or one left behind, and each open file has one at most |
| `RegistrationInvariant.HangUpKeepsBatch` | src/linux/environment_synchronization_thread.rs:129-140 | after a hang-up, the events left in the batch still name, if anything, the sockets they were reported for |
| `DescriptorTheorems.StepKeepsInv` | src/linux/environment_synchronization_thread.rs:78-194 | every step keeps the invariant of descriptors, open files, registrations and batch |
| `DescriptorTheorems.SocketsAreConserved` | src/linux/environment_synchronization_thread.rs:316-358 | a descriptor put into the set is either still held or closed, never both, never closed twice, and closed for certain once the set is empty |
| `DescriptorTheorems.InsertsAreNew` | src/linux/environment_synchronization_thread.rs:169-182 | an insert never meets a duplicate, and no client's number equals a special event's |
| `DescriptorTheorems.HangUpsAreSafe` | src/linux/environment_synchronization_thread.rs:129-140 | a hang-up closes and removes the very socket it was reported for and no other, also after the number was reused, and ends the loop exactly if none is left; a late report changes nothing |
| `DescriptorTheorems.LeavingLetsGo` | src/linux/environment_synchronization_thread.rs:93-121 | a failed wait and the drop request end the loop; then the epoll instance goes with its registrations, and every socket can be closed |
| `DescriptorTheorems.RemainingSocketsCanBeClosed` | src/linux/environment_synchronization_thread.rs:350-358 | once the loop is left each socket still held can be closed, one by one until none is left |
| `DescriptorTheorems.RequestsAreSafe` | src/linux/environment_synchronization_thread.rs:142-153 | a request is received from the very socket it was reported for, also after the number was reused |
| `DescriptorTheorems.RegistrationsAreExact` | src/linux/environment_synchronization_thread.rs:92-99 | registrations are the sockets and the two special events, and fit the buffer, if and only if the welcome thread does not hold the client of a socket already removed; otherwise there is exactly one more |
| `DescriptorTheorems.RequestsFallOutsideTheWindow` | src/linux/environment_synchronization_thread.rs:92-110 | while add_listener is signalled the buffer of len + 2 holds every registration |
| `DescriptorTheorems.DropsFallOutsideTheWindow` | src/linux/environment.rs:67-77 | while the drop event is on the buffer of len + 2 holds every registration |
| `DescriptorTheorems.ReportFits` | src/linux/environment_synchronization_thread.rs:92-121 | a report of everything that is ready fits the buffer outside the window, and whenever a special event is on it is outside the window |
| `DescriptorTheorems.EveryRunIsSafe` | src/linux/environment_synchronization_thread.rs:78-182 | conservation, new inserts, safe hang-ups and requests, exact registrations, and no special event on in the window, in every state of every run |
| `DescriptorWindow.WindowIsReachable` | src/linux/welcome_thread.rs:226-257 | a run to a state with one socket and four registrations |
| `SignalEvents.AdvanceKeepsFds` | src/linux/runtime.rs:183-258 | after every single operation of a setup exactly the published eventfds and those still owned by the setup are open |
| `SignalEvents.AdvanceRecycles` | src/linux/runtime.rs:195-215 | no operation of a later setup changes, closes or clears a published eventfd |
| `SignalEvents.AbandonLeavesPublished` | src/linux/runtime.rs:187-193 | a failed setup leaks nothing |
| `SignalEvents.FdsAreRecycled` | src/linux/runtime.rs:183-258 | between setups exactly two distinct eventfds are open, and an installed handler sees neither -1 nor a closed descriptor |
| `ReloadInvariant.MainMovesDecided` | src/main.rs:66-97 | main's steps keep a shutdown decision, and finish a reload that is under way unless a shutdown is decided |
| `ReloadInvariant.WelcomeMovesDecided` | src/linux/welcome_thread.rs:57-92 | the welcome thread's steps keep a shutdown decision, and put a reload under way only after a poll that saw no shutdown request |
| `ReloadInvariant.FailuresDecided` | src/linux/welcome_thread.rs:66-70 | failed calls and a broken welcome socket keep a shutdown decision; the latter decides one though the thread goes on polling |
| `ReloadInvariant.FailuresAreReported` | src/linux/welcome_thread.rs:34-54 | main is told of a failed call first and then to reload, and of a broken socket first and then to shut down |
| `ReloadTheorems.StepKeepsInv` | src/main.rs:31-100 | every step of main, welcome thread and signals keeps the invariant |
| `ReloadTheorems.ShutdownReadIsAnswered` | src/linux/welcome_thread.rs:75-82 | the shutdown counter goes down only in a step whose successor sends a shutdown message |
| `ReloadTheorems.DescriptorsAreForGood` | src/linux/runtime.rs:195-215 | the stored descriptor numbers never change after the first setup |
| `ReloadTheorems.NoRequestIsLost` | src/main.rs:31-100 | over any number of reloads a shutdown or reload request stays pending until it is acted upon; at most 1 + (later failed poll, listen and eventfd calls) reloads get in before a requested shutdown; after any init exactly two signal eventfds are open |
| `ReloadInvariant.WelcomeUsesRank` | src/linux/welcome_thread.rs:34-130 | with a shutdown request pending each operation of the welcome thread, also a failing one, brings its last message nearer |
| `ReloadTheorems.ReloadIsBounded` | src/linux/welcome_thread.rs:57-92 | a reload request is acted upon within six operations of the welcome thread |
| `ReloadTheorems.ShutdownIsBounded` | src/linux/welcome_thread.rs:34-130 | after a shutdown request all welcome threads together do six operations at most for each reload that gets in first, and six more; so at most 6 * (2 + later failed calls) |
| `ReloadTheorems.ShutdownCanProceed` | src/main.rs:31-100 | from the request to the end of the process, main or the welcome thread can always take a step |
| `ReloadTheorems.ReloadsAreRateLimited` | src/main.rs:74-81 | whatever asks for reloads, at most 198 survive the breaker in any window shorter than four seconds |
| `ReloadCauses.TripEndsTheProcess` | src/linux/circuit_breaker.rs:18-34 | main goes on to reload if and only if the breaker lets the reload through; otherwise the process is killed |
| `ReloadCauses.EveryReloadHasItsCause` | src/main.rs:31-98 | each incarnation but the first goes back to a surviving reload of its own, and each reload to a reload signal or a failed call of its own; after the first init all three handlers are installed |
| `ReloadCauses.IncarnationsAreRateLimited` | src/main.rs:31-98 | while the reloads lie within less than four seconds, at most 199 incarnations are set up, whatever happens |
| `ReloadCauses.SignalRaisesItsCounter` | src/linux/runtime.rs:261-310 | once the daemon is set up, SIGTERM and SIGINT raise the shutdown counter by one, SIGHUP the reload counter, and nothing else changes |
| `ReloadCauses.OnlyUnhandledSignalsKill` | src/linux/runtime.rs:261-296 | a signal ends the process at once if and only if its handler is not installed |
| `ReloadCauses.EveryPollServes` | src/linux/welcome_thread.rs:57-152 | every poll that saw no request is followed by seeing to closings and clients before the next one, on a thread that listens; main receives only after its notification |
| `ReloadCauses.EveryEndHasItsCause` | src/main.rs:40-100 | exit code 1 exactly if an operation of main failed, 0 only after a shutdown signal or a broken welcome socket, killed only by the breaker or by a signal before the first init; no orderly end leaves a welcome thread or an unpublished eventfd behind, and the handler's own exit is never reached |

## Left out

- Main, the welcome thread and the environment threads are values stepped by transition systems, not objects with methods: other threads move between any two of their operations, which the contract of a method cannot say. Update in place and aliasing of the map, the channels and the shared eventfds are not captured; the order of operations is.
- Parsing, serialising and answering of client requests: the formats are not part of this repository. A parsed request is an input, a malformed one a failed step; the reply with the page's descriptor is not modelled.
- `PthreadMutex` itself and what clients do with mapped memory: only its size, its alignment and whether its constructor succeeds matter here. A panicking constructor is not modelled.
- memfd, ftruncate, seals and mmap are one mapping that succeeds or fails; that an abandoned memfd is closed and that a dropped allocator closes its pages' descriptors follows from ownership and is not modelled.
- Creating the two eventfds and the thread in `Environment::new`: a failure there is a failed open that leaves no environment behind.
- `check_privileges`, socket set-up, systemd notifications other than the one that can end the process, the logger, environment variables and error texts: straight sequences of calls.
- Blocking of send and recv on client sockets, interrupted waits beyond "the call failed", and failing eventfd reads and writes.
- A leaving environment thread closes its channel ends in one step; between their separate closings no other thread can tell the difference except by which of two errors it returns.
- Memory orderings: the breaker is called only from main, and the handlers' loads follow the stores that precede their installation.
- Whether the process terminates: after a broken welcome socket, or a failed ready notification, main waits in a join for an outside event, and the models say what is decided, not when it happens.
- ReloadTheorems.ShutdownIsBounded: counts the welcome threads' operations; that a thread is scheduled, and how many error messages main receives first, is not said.
- EnvironmentTheorems.WaitsAreBounded: bounds the steps of the thread waited for, not their duration; handling a request of a client counts as one step.
- Two's-complement width of sizes: no sum of the lookup exceeds two pages, which fits a usize, so the naturals of the model never differ from it.
