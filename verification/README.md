# rpmem: protocol, pool and mirror, in Dafny

rpmem lends file-backed regions of a server to clients. A client opens a connection, maps a
region (the server picks a resource from its pool, maps and registers it, and the client
mirrors it with an RDMA READ), commits (an RDMA WRITE followed by a COMMIT message, on which
the server calls msync), unmaps and closes. This project models that system and proves, for
every run of any number of connections, that the client sees a simple object: map copies the
region to a local buffer, commit copies the buffer to the region, unmap forgets.

`dafny verify dfyconfig.toml` checks the whole project.

## How the model is built

| file | content |
|---|---|
| `Wire.dfy`, `WireBuffers.dfy` | the 48-byte wire format: pure functions and round trips; the packers and unpackers on arrays |
| `PoolModel.dfy` | the pool's fields, its two critical sections store by store, and the one-step operations they refine |
| `ResourceList.dfy` | the pool on the heap: resources linked through their own `next` field, units holding them |
| `System.dfy` | the transition system: client threads, adapters, completion threads, handlers, shared memory and registrations |
| `Invariant.dfy`, `LocalSteps.dfy`, `SharedSteps.dfy`, `Induction.dfy` | the inductive invariant (one part per connection, one shared, and a rely/guarantee condition between them) and its proof |
| `Safety.dfy`, `History.dfy`, `Mirror.dfy` | what follows: safety in every reachable state, where answers come from over whole runs, the refinement |
| `Delivery.dfy`, `Footprint.dfy`, `Aftermath.dfy` | what calls bring about: the bytes that map delivers, what stays mapped on the server, what calls leave on the client |
| `Termination.dfy`, `Drain.dfy`, `Progress.dfy`, `Return.dfy`, `ThreadEnd.dfy`, `FullPolls.dfy`, `Refused.dfy` | liveness: a bound on the work of a command, the server's drain loop and its budget, no deadlock, the exact condition under which a command can return, the exact conditions under which its request is lost, and maps that the server could not serve |
| `Capacity.dfy` | the slots of the client's queue pair and the size of its completion queue, which the event loop of `Notify.dfy` keeps up with |
| `Notify.dfy` | one-shot arming and the drain loop of either side |
| `Setup.dfy`, `Negotiate.dfy` | connection set-up on the client; the length the example asks for |

A step of `System` is one store, one post, one completion or one system call, by one
connection, and every choice of the environment is a parameter of the step: which post or
system call fails, which address mmap returns, what an uninitialised variable holds, when the
queue pair breaks. A send carries no payload: the adapter reads the request or response buffer
when it executes, so a buffer repacked or zeroed too early would be seen.

Assumptions, all of them about what lies outside the modelled files:

- A queue pair executes its send queue in order, completes it in order, and delivers each
  message once; a message needs a posted receive at the other side. An RDMA access is atomic.
- A remote access succeeds only under a live registration with that key, in the protection
  domain of that connection, covering the range. `ibv_reg_mr` returns a key not in use, and
  does not register a mapping that mmap failed to create. A refused access breaks the queue pair.
- mmap of a positive length returns a range that is unmapped and lies above 2^31; mmap of
  length 0 fails. Hence the `munmap(NULL, len)` on the registration failure path hits nothing.
- Lengths fit a non-negative int, and the sizes of all resources add up to less than 2^31.
- One application thread per file, which alternates map and unmap and does not write its
  buffer while a call runs. It may repeat, or follow by any other call, a map or a commit
  whose posts failed, also when the commit's WRITE is still queued. After a failed unmap and
  after a READ that could not be posted (the server then keeps the mapping) it only closes.
- The client's queue pair takes four send and four receive requests: a post fails when all
  slots are taken, and may fail at any other time. A request gives its slot back when its
  completion is polled.
- A poll of a completion queue returns between 0 and 16 completions, none only if the queue
  is empty, and never an error.
- During set-up the connection manager only answers what it was asked: an address, a route
  or an ESTABLISHED event comes only after the call that asks for it (`Setup.PrivFile.Possible`).

Where the source and its promise part ways, the model follows the source:

- MAP_RSP carries no status, and on its failure paths the key and the address it sends are
  arbitrary. It is the READ that tells: a map that has posted its READ can return if and only
  if its connection has a registration (`MapReadReturns`), and otherwise waits for ever
  (`FailedMapNeverReturns`). `MapCanBeRefused` gives the failure-free run that ends there:
  open, and a map of a length that no resource exceeds.
- The drain loop strands a completion as soon as the queue can hold more than 64 of them
  (`NoStrandedCompletion` gives the exact condition; the client's queue holds 8).
- On leaving by its budget the client's drain loop reports nothing, but the server's reports
  an error and its thread ends, even if nothing failed. Each command costs the server two
  completions: the k-th command of a connection can be lost in a run without any failure if
  and only if k is at least 33 (`FirstCommands`, `ThreadCanEnd`, `KthCommand`); its caller
  then waits for ever (`DeafForever`). `RequestIsLost`, `CommandReturns` and
  `CommandMustReturn` give the conditions in the counters of the drain loop; the size of the
  queue is none of them (`NoStrandedRequest`). A poll may return fewer completions than are
  queued, and `RequestIsLost` makes use of that; `RequestIsLostFully` is the exact condition
  when every poll returns all it can.
- A failed route step wakes nobody, so `rpmem_open` waits for ever. The opener is stuck if
  and only if a route step failed, or rdma_get_cm_event did before ESTABLISHED (`AnySetup`);
  `RouteStepFails` runs into it.

## Model

| member | source | states |
|---|---|---|
| Mirror.RunRefines | rpmem.c:500-681 | seen through any one connection, every run of the whole system is a run of the object "map copies region to local, commit copies local to region, a write of the application replaces local, unmap forgets" |
| Mirror.Refines | rpmem_server.c:177-355 | each step is, on its own connection, the one operation of that object named for it, and is invisible on every other connection |
| Safety.MapReturns | rpmem.c:551-567 | when map returns its buffer it was woken by the READ, the unit holds a resource with one live registration covering exactly the range, the handle names it, and buffer and region are equal |
| Delivery.MapDelivers | rpmem_server.c:228-252 | whenever map returns its buffer, the server's mmap succeeded earlier in the run, within that map, at the address of the handle, and the buffer equals the bytes that mmap mapped, one by one |
| Footprint.UnmapRemoves | rpmem_server.c:285-304 | when unmap returns 0, no byte that was mapped for this connection is left in server memory |
| Footprint.PooledIsUnmapped | rpmem_server.c:285-304 | a unit that holds no resource has no byte mapped |
| Footprint.MappedExactly | rpmem_server.c:200-237 | while mapped, the bytes kept for a connection are exactly those of the region its handle names, and its resource is larger than the region |
| Footprint.FailedMapLeavesNothing | rpmem_server.c:228-244 | a map that got no registration has left nothing mapped, whichever of its calls failed |
| Footprint.MunmapRemoves | rpmem_server.c:291-295 | munmap removes exactly the bytes of this connection and changes no other |
| Footprint.DeregRemoves | rpmem_server.c:287-289 | ibv_dereg_mr removes the connection's only registration and no other, and the resource's address and length are cleared |
| Footprint.RegMrFails | rpmem_server.c:236-243 | a failed registration unmaps what was mapped, leaves the resource without a registration and answers with address 0 |
| Safety.FailedMapNeverReturns | rpmem_server.c:217-252 | once a client waits for its READ and the connection has no registration, it is still there, unmapped, with every access refused and nothing on its way to wake it, in every later state of the run |
| Safety.AccessIsOwn | rpmem_server.c:486-490 | a remote access let through on a connection touches only bytes that this connection mapped, whatever key and address it uses |
| Safety.Isolation | rpmem_server.c:319-355 | a step of one connection changes neither another's state, nor its resource, nor its region |
| Safety.CommitReturns | rpmem.c:666-677 | a woken commit accepts its answer, and region and buffer are then equal |
| Safety.MsyncSees | rpmem_server.c:326-338 | msync is given the mapping the connection holds, wholly mapped, containing the committed bytes |
| History.CommitIsSynced | rpmem.c:667-677 | if commit returns 0, an msync succeeded earlier in the run, within that commit, on that mapping, and saw the bytes of the client's buffer |
| History.OpenSizeWasSeen | rpmem.c:406-413 | the size open returns is the sum of the pooled sizes at one earlier instant, or before or after the critical section then running |
| History.DecidedSince | rpmem_server.c:131-355 | every answer was decided by one earlier step of the same connection in the same command, and the client's buffer and handle have not changed since |
| Safety.HandleAgreement | rpmem.c:542-542 | a mapped client's key, address and length are those of its unit's resource and of its only registration |
| Safety.UnmapNamesMapping | rpmem_server.c:264-291 | the unmap handler never meets a null resource, and the address and length it unmaps are those of the mapping it deregisters |
| Safety.UnmapReturns | rpmem.c:606-624 | a woken unmap accepts its answer, which is 0 exactly when the unit gave its resource back; no registration is then left; the client keeps no buffer, length, key or address, whatever the answer |
| Aftermath.ClosedIsOver | rpmem.c:472-496 | after close has returned, or open or close has failed, for the rest of the run no request is executed, no answer is delivered and the client makes no call |
| Aftermath.FailedCall | rpmem.c:500-681 | a call that cannot post undoes what it set up: open and close end the connection, map and unmap leave no buffer and no length, commit keeps the mapping; the server is untouched |
| Aftermath.MapUnallocated | rpmem.c:507-511 | a map that cannot allocate its buffer leaves none and no length |
| Aftermath.FailedRepost | rpmem_server.c:131-355 | what each handler answers when it cannot repost its receive |
| Aftermath.FailedHandler | rpmem_server.c:217-345 | what a handler answers when munmap or msync fails or no resource was found; the server's state is untouched |
| Aftermath.PostedBuffersAreZero | rpmem_common.c:95-106 | all 48 bytes of a buffer are 0 when it is posted for a receive, on either side |
| Aftermath.MapBegins | rpmem.c:507-513 | a map begins on a zeroed buffer of its length |
| History.CloseReturns | rpmem_server.c:160-175 | close always unpacks an answer of 0 |
| Safety.MapUsesItsResource | rpmem_server.c:200-228 | when the unit got a resource, the loop variable used after the loop is that resource |
| Safety.LockStep | rpmem.c:524-539 | without failures, at most one message is in flight on a connection and it finds its receive posted |
| Safety.BuffersAreFree | rpmem_common.c:60-113 | failures or not, no buffer is packed while its message is undelivered and no receive is open over a request still to be read |
| Safety.SemaphoreAccounting | rpmem.c:54-66 | the semaphore is at most 1, is 0 with nothing to come outside a wait, and each wait ends only by the completion it waits for |
| Safety.NoStaleResponse | rpmem_common.c:95-106 | every answer ever unpacked is the one posted last, for the request issued just before it, and the handler acted on exactly that request |
| Safety.HandlerActsOnItsRequest | rpmem_server.c:358-388 | from dispatch to answer the handler's locals are those of the request that the waiting client issued, also after the buffer was zeroed and reposted |
| Safety.ReceiveBound | rpmem_server.c:620-624 | posted receives, arrived requests and a request not yet reposted never exceed one |
| Safety.Frozen | rpmem_server.c:160-175 | once that number is 0 it stays 0 for the rest of the run: no request is dispatched again and the unit's resource does not change |
| Safety.PoolOwnership | rpmem_server.c:832-837 | outside the lock every resource is pooled once or held by one unit and the counters are the two sums and add up to the total; no resource ever has two owners |
| Safety.MutualExclusion | rpmem_server.c:200-215 | at most one handler is inside a critical section, and it is the one that holds the lock |
| Safety.OpenReports | rpmem_server.c:139-139 | the unlocked read, at any instant, gives the sum of pooled sizes before or after the running critical section, between 0 and the total |
| Induction.RunInv | rpmem_server.c:358-388 | the invariant of all connections and the shared state holds in every state of every run |
| Induction.NextKeeps | rpmem.c:336-681 | every step of every connection keeps the invariant and leaves the share of every other connection untouched |
| Termination.CommandTerminates | rpmem.c:76-133 | under any interleaving, a connection that meets no failure and calls nothing new takes at most as many steps as its remaining work |
| Progress.NoDeadlock | rpmem.c:538-567 | while nothing has failed and the request has not found the server's thread gone, a command that is not over can take a step in which every system call that can succeed does, or waits for the pool lock, whose holder can take one |
| Return.CommandReturns | rpmem.c:500-681 | a command that met no failure and is granted an address, a key and a fitting resource if it is a map can return, its answer reporting success and nothing having failed, if and only if its request has been polled, or the drain loop has polled fewer than 64 completions and at most 78 come before the request, both counted from the last empty poll |
| Drain.LateForever | rpmem_server.c:429-441 | when that condition does not hold the command does not return while nothing fails, whatever any connection does |
| Drain.DeafForever | rpmem_server.c:473-475 | a client whose posted request finds the thread gone waits at the same place in every later state of the run, whatever fails |
| ThreadEnd.RequestIsLost | rpmem_server.c:429-441 | without failures, a run in which the request finds the thread gone exists if and only if 64 completions or more, counted from the last empty poll, can come before the request and no poll has returned it |
| ThreadEnd.FirstCommands | rpmem_server.c:422-444 | the first 32 commands of a connection that meets no failure are never lost and never too late |
| ThreadEnd.ThreadCanEnd | rpmem_server.c:434-475 | from every initial state that offers a map what it needs, a run of open, map and commits without any failure ends the server's thread and loses the 33rd command |
| ThreadEnd.KthCommand | rpmem_server.c:422-475 | from every initial state that offers a map what it needs, the k-th command of a connection can find the thread gone in a run without any failure if and only if k is at least 33 |
| ThreadEnd.CommandMustReturn | rpmem.c:500-681 | a command whose request is not at risk and that meets no failure takes at most as many steps as its work, under any interleaving, and where its connection can take none, the lock being free, it is over |
| FullPolls.RequestIsLostFully | rpmem_server.c:429-435 | when every poll returns a batch of 16 or all that is queued, a request that has arrived can be lost if and only if whole batches ahead of it use up the budget, and one that has not arrived under the condition of `RequestIsLost` |
| Refused.MapReadReturns | rpmem.c:551-567 | a reachable map that has posted its READ and met no failure can return without one if and only if its connection has a registration |
| Refused.MapCanBeRefused | rpmem_server.c:200-252 | from every initial state in which no resource is larger than the length, a run of open and map without any failure ends in a READ that no continuation brings back |
| Drain.TallyStep | rpmem_server.c:429-435 | every failure-free step of a command keeps the number of completions its server has seen or will see, except an empty poll, which subtracts those polled |
| Capacity.ClientQueueFits | rpmem.c:184-236 | the completions in the client's queue and those its posted requests still owe never exceed its 8 entries, whatever fails; and the event loop on a queue of 8 has a run that holds exactly those completions and strands none |
| PoolModel.UnlockIsAtomic | rpmem_server.c:200-215 | the single stores of a critical section add up to first-fit take or give at the head, on a consistent pool |
| PoolModel.StoreKeepsPool | rpmem_server.c:298-304 | every store keeps the section's invariant and moves neither the pool it started from nor the one it is heading for |
| PoolModel.TakeKeepsPool | rpmem_server.c:201-214 | a take by a unit holding nothing keeps the pool consistent, fails exactly when no pooled size exceeds the length, and touches no other unit |
| PoolModel.GiveKeepsPool | rpmem_server.c:299-303 | a give keeps the pool consistent |
| PoolModel.GiveThenTake | rpmem_server.c:200-304 | unmap followed directly by a map that fits restores the pool exactly, with the same resource |
| PoolModel.Conserved | rpmem_server.c:832-837 | free and in-use sizes add up to the sum of all sizes |
| PoolModel.UnlockedRead | rpmem_server.c:205-211 | between any two stores free_size is the sum before or after the section and within 0 and the total |
| PoolModel.FirstFit | rpmem_server.c:201-203 | the index of the first size strictly above the length, none before it, or the list's length |
| PoolModel.TakesFirst | rpmem_server.c:201-214 | the resource taken is the one that fits and has none before it that does, the others keep their order and the counters move by its size; if none fits nothing changes |
| ResourceList.Server.Take | rpmem_server.c:200-221 | on the linked list: the first fitting node is unlinked, the others keep their order, the loop variable equals unit->res, null exactly when nothing fits; every resource stays pooled once or held by one unit |
| ResourceList.Server.Search | rpmem_common.h:68-73 | the loop stops at the first fitting node or at the end of the list |
| ResourceList.Server.Unlink | rpmem_server.c:208-211 | removing a node leaves a well-linked list of the others in order |
| ResourceList.Server.Give | rpmem_server.c:298-304 | the unit's node becomes the head, the unit holds nothing, counters and ownership stay consistent |
| ResourceList.Server.GiveAndTake | rpmem_server.c:298-304 | give followed by a take that fits returns the same node and the same list |
| ResourceList.Server.constructor | rpmem_server.c:828-837 | main's pool of one resource is consistent |
| ResourceList.Server.NewUnit | rpmem_server.c:589-594 | a new unit holds nothing |
| Notify.NoStrandedCompletion | rpmem.c:101-133 | under every interleaving of arrivals with the loop a blocked thread has a pending event for a non-empty queue and an armed queue or a pending event for an empty one, exactly when the queue never holds more than 64 |
| Notify.NoStrandedRequest | rpmem_server.c:422-477 | under every interleaving the server's thread lives, and a sleeping thread has an event for what is queued or an armed queue, exactly when fewer than 64 completions arrive between two polls that find the queue empty, for every queue of one entry or more |
| Notify.Conservation | rpmem.c:84-91 | what was handled followed by what is queued is what arrived, in order, and the semaphore was posted once per successful receive or READ handled |
| Notify.CompletionQueue.Drain | rpmem.c:84-91 | however completions keep arriving, the call ends, handles each once in queue order, at most 79, and stops short of an empty queue exactly when it handled 64 or more |
| Notify.CompletionQueue.HandleWc | rpmem_server.c:399-420 | the client posts its semaphore for a successful receive or READ, the server runs a handler for a successful receive, and neither does anything else |
| Notify.CompletionQueue.ClientEventHandler | rpmem.c:76-99 | returns 0 also when it leaves on the budget; the semaphore is posted once per successful receive or READ handled |
| Notify.CompletionQueue.ServerEventHandler | rpmem_server.c:422-444 | returns -1 exactly when it leaves on the budget; a handler runs once per successful receive handled |
| Wire.RequestRoundTrip | rpmem_protocol.c:38-211 | a request packed over any stale bytes decodes to itself; bytes past its fields are unchanged |
| Wire.ResponseRoundTrip | rpmem_protocol.c:49-240 | each unpacker accepts exactly its own response, with the packed values, over any stale bytes |
| Wire.NoResponseInRequestOrZero | rpmem_protocol.h:45-58 | no unpacker accepts a request or a zeroed buffer |
| Wire.FieldsAreBigEndian | rpmem_protocol.c:119-138 | fields are the big-endian numbers of their 4 or 8 bytes |
| Wire.RequestLayout | rpmem_protocol.h:42-100 | the opcode, int and address of each request by their numbers and byte positions |
| Wire.ResponseLayout | rpmem_protocol.h:102-137 | the opcode, int or key, and address of each response by their numbers and byte positions |
| WireBuffers.ReadRequest | rpmem_server.c:358-388 | the dispatcher and the handlers read the request that was packed, over any stale bytes |
| WireBuffers.ZeroBuffer | rpmem_common.c:95-95 | each of the 48 bytes is 0 |
| WireBuffers.PackOpenReq | rpmem_protocol.c:38-44 | only the opcode is written |
| WireBuffers.PackCloseReq | rpmem_protocol.c:78-84 | only the opcode is written |
| WireBuffers.PackMapReq | rpmem_protocol.c:119-125 | opcode and length are overlaid |
| WireBuffers.PackUnmapReq | rpmem_protocol.c:161-169 | opcode, length and address are overlaid |
| WireBuffers.PackCommitReq | rpmem_protocol.c:203-211 | opcode, length and address are overlaid |
| WireBuffers.PackIntRsp | rpmem_protocol.c:49-56 | opcode and one int are overlaid; the same for close, unmap and commit answers |
| WireBuffers.PackMapRsp | rpmem_protocol.c:130-138 | opcode, key and address are overlaid |
| WireBuffers.UnpackIntRsp | rpmem_protocol.c:61-73 | -EINVAL and the caller's variable untouched, or 0 and the packed value, exactly for answers of the kind asked for; the same for close, unmap and commit |
| WireBuffers.UnpackMapRsp | rpmem_protocol.c:143-156 | -EINVAL and both variables untouched, or 0 and the packed key and address, exactly for map answers |
| Setup.PrivFile.AnySetup | rpmem.c:268-391 | over every interleaving of events with the opening thread, for the events handled, which the script offers in that order: the state is established exactly when ESTABLISHED was handled and no error or disconnection was; the first receive is posted only after ESTABLISHED with all objects in place; a failed address step is never followed by a route event; the opener is left waiting with nobody to wake it, for ever, exactly when a route step failed or no event was got before ESTABLISHED; once woken it checks, at most once, and goes on or gives up for good; ERROR and DISCONNECTED are final |
| Setup.PrivFile.AddrHandler | rpmem.c:135-219 | all objects are in place on success; on failure of any call none is left and the opener is woken once |
| Setup.PrivFile.RouteHandler | rpmem.c:221-266 | on failure no queue pair is left and no semaphore is posted |
| Setup.PrivFile.CmTurn | rpmem.c:268-334 | the whole new state after each event: what was handled, the state, whether the opener is woken, whether the thread ends, what is asked for next; the set-up invariant is kept |
| Setup.RouteStepFails | rpmem.c:221-266 | an address step that succeeds and a failing queue pair or connect leave the opener waiting with nobody to wake it |
| Setup.PrivFile.OpenCheck | rpmem.c:380-391 | an established connection goes on, with everything in place; any other makes open give up |
| Negotiate.LengthIsGranted | simple_commit.c:84-84 | for every reported int the length is the largest positive multiple of 1024 that leaves at least 1024 bytes, or 1024 when there is none, without overflow, and a pool of one resource of that size grants it exactly when the size exceeds 1024 |

## Left out

- Persistence to the file: the server maps with MAP_PRIVATE, so committed bytes stay in the mapping; the claims are about the mapped region.
- Progress under failures: an error completion posts no semaphore and the caller waits for ever; only failure-free progress is claimed.
- Return.CommandReturns: that mmap and ibv_reg_mr find room, and that a resource fits, is the environment's choice and a hypothesis (`Hope`); a map that gets nothing never returns (`Safety.FailedMapNeverReturns`).
- The 128 slots of the server's queue pair: a post that finds none is one of the failing posts that the model allows at any time; it takes more than 100 answers delivered and never acknowledged.
- Reclaiming resources on close or disconnect: the server does not do it; the model shows the resource stays where it was (`Safety.Frozen`).
- A second map while the unit still holds a resource, as after a failed munmap: excluded by the assumption on the application.
- Leaks of verbs objects in the failure paths of `rpmem_open` and in `rpmem_close`: not modelled.
- `file_list` and `conns_list`: inserted into and removed from, never searched.
- `posix_fallocate` and `total_size`: no value that a client sees depends on them.
- Server-side connection set-up failures: a connection exists in the model once its first receive is posted and it was accepted.
- Partial and overlapping RDMA transfers: an access is one step.
- ResourceList.Server.Take: the heap methods are whole critical sections; their interleaving with the unlocked reader, store by store, is in `PoolModel`.
- Argument parsing, address lookup, logging and the rest of the example programs: no property beyond plumbing.
