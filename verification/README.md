# Operating-systems exercises, modelled and proved

The exercises of this repository are small complete concurrent programs: locks built from plain
variables, semaphores, monitors, message passing, and two sequential ones. Each of them is modelled here
as a state machine and its promises are proved for every number of threads and for every schedule.

## How a program is modelled

A program is a datatype `State` (the shared variables, and for each thread a program counter and its
locals), a list of actions, and a total function `Step(state, action)`. One action is one access to shared
memory, one semaphore, mutex or condition-variable operation, or the sending or taking of one message; an
action that cannot happen leaves the state alone. `Runs.Exec(Step, Init(..), schedule)` applies an
arbitrary schedule, so a statement about it for all schedules is a statement about every reachable state.
Possibility statements ("can be completed", "does deadlock", "ends with exactly v") use `Runs.Reaches`.
Where a proof counts threads (holders of a semaphore, readers inside) the counts are collected in a
`Tally`, and a step moves one thread from one class to another.

The C programs change variables in place, and so do their models: each has a class with those variables as
fields and arrays, whose methods are the source's functions step by step, each proved equal to `Step` on
the abstract `View()`; a `Run` method executes any schedule in place and inherits the theorems. The Erlang
programs keep their state in arguments and are modelled by functions.

| file | program |
|---|---|
| `Bakery.dfy` | Lamport's bakery of `Practica-2/eje-15`, with and without the tie-break (`tie`) |
| `PetersonTso.dfy`, `PetersonWaiting.dfy` | Peterson's lock of `Practica-2/eje-4` on x86-TSO store buffers, with and without `mfence`: exclusion, and how long a thread waits |
| `Barber.dfy`, `BarberArrivals.dfy` | the sleeping barber of `Practica-3/eje-5/sembarb.c`: order and service, and who gets a chair |
| `MpiRing.dfy`, `ErlangRing.dfy`, `ErlangClose.dfy`, `RingSum.dfy` | the two all-to-all sums, MPI (`Practica-4/eje_8.c`) and Erlang (`Practica-5/anillos.erl`), what `close` does, and their arithmetic |
| `ReadersWriters.dfy`, `ReadersWritersProgress.dfy` | both readers/writers locks of `Practica-3/eje-4` with the client `parnas.c`: what the lock keeps out, and that everybody can get in |
| `Dining.dfy`, `DiningProgress.dfy` | the four dining philosophers of `Practica-3/eje-2`: deadlock and meals, and that the hungry get to eat |
| `SemaphoreBuffer.dfy`, `MonitorBuffer.dfy`, `AtomicStack.dfy` | the bounded buffer of `Practica-3/eje-3`, with semaphores and with a monitor, against one atomic stack |
| `SyncServers.dfy`, `CountingSemaphore.dfy` | the lock and semaphore servers of `Practica-5/sync.erl`, against a counting semaphore |
| `RacingCounter.dfy` | the unprotected counter of `Practica-2/eje-6` and `eje-7` |
| `Matrix.dfy` | the four matrix products of `Practica-4/eje_4.c` |
| `Lexer.dfy`, `Pipeline.dfy`, `Parser.dfy`, `TokenList.dfy` | `parsing_input` of the mini shell and its token list |
| `Runs.dfy`, `Counting.dfy`, `Circle.dfy`, `Mailbox.dfy` | schedules and reachability; counting; places in a circle; selective receive |

## Assumptions

- Memory is sequentially consistent and program order is kept, except in `PetersonTso.dfy`, where every
  thread has a FIFO store buffer with forwarding. Compiler reordering is not modelled.
- Sleeps, random delays and output are arbitrary scheduling. A mutex, a semaphore or a signal may pick any
  waiter; a thread may also wake up for no reason.
- Tickets and counters are unbounded integers, except in `MatrixProduct.FitsIff`. A schedule may name a
  thread that does not exist; nothing happens then.
- Bakery: `max` reads a slot once to compare it and, when it is larger, a second time to take its value, as
  the text of `Practica-2/eje-15/bati-juan.c:16-17` does; other threads may change the slot in between.
- Barber: a thread enters with an id that no live client has, which the counter of line 121 gives as long
  as it does not come round to a client still there.
- Readers/writers: the unguarded `writing--` of `write_unlock` is one atomic step. Waking from a wait and
  locking the mutex again is the same phase as locking it the first time.
- MPI sends are buffered. Erlang messages are in transit, FIFO between two processes, before they are in
  the mailbox; the answers of the ring processes and the requests go straight to the mailbox of `srv`.
- Sync servers: the waiter's mailbox, which only ever holds `finished`, is a number.
- Parser: the n-th file opened gets descriptor n; opening never fails.

## Where the code differs from what is said about it

- `panaderia` lacks the tie-break that `lamport_lock` documents. As written it excludes exactly when there
  are fewer than two threads or nothing to do (`Bakery.ExcludesIff`), and exactly then is every visitor
  counted (`Bakery.CountsIff`); what it still guarantees is in `Bakery.EqualTicketsInside`,
  `Bakery.FirstComeFirstServed` and `Bakery.VisitorsAtMost`. `lamport_lock` itself cannot run: its
  `max` is a stub, its last loop has no body, and `&&` binds tighter than `||` in its condition, so only
  the order it documents is taken from it.
- `main` of `eje_4.c` makes four multiplications into the same C; only two are sure to fit in a 32-bit int
  (`MatrixProduct.FitsIff`). `mult_par` multiplies by the transpose of B.
- In `sync.erl` the names are swapped: `semV` takes a place and `semP` gives it back.
- `cant_comidas` of the back-off philosophers is tested outside the forks, so 1001 meals happen as well as
  1000 (`Dining.BothMealCounts`).
- When `parsing_input` refuses a line it closes the descriptors of the commands already stored, but not the
  one of the command being read, so it leaks exactly when that command has a redirection already
  (`Parser.LeakIff`; `> f | |` does it, `Parser.LeakExample`). An empty command before the first or after the last
  pipe is accepted; only one between two pipes is refused.

## Model

| member | source | states |
|---|---|---|
| Bakery.MutualExclusion | Practica-2/eje-15/eje-15.c:20-39 | with the documented (ticket, id) order no reachable state of any number of threads has two between the wait loop and the release, although the ticket scan, with its two reads per slot, and the waits are not atomic |
| Bakery.EqualTicketsInside | Practica-2/eje-15/bati-juan.c:26-35 | as written, two threads inside at once hold equal non-zero tickets |
| Bakery.FirstComeFirstServed | Practica-2/eje-15/bati-juan.c:26-35 | with or without the tie-break, a thread past its doorway is not overtaken by one that had not entered it: until the first finishes its round the second neither enters nor completes one |
| Bakery.DrawsTheNextNumber | Practica-2/eje-15/bati-juan.c:26-28 | with nobody else moving, the doorway leaves flag[id] one above the largest of all flags, choose[id] at 0 again and the rest as it was |
| Bakery.VisitorsExact | Practica-2/eje-15/bati-juan.c:21-38 | with the tie-break, or with fewer than two threads, every completed run ends with visitantes == N * VPM |
| Bakery.VisitorsAtMost | Practica-2/eje-15/bati-juan.c:34 | with or without the tie-break no visitor is ever counted twice: in every reachable state visitantes is at most the visits made |
| Bakery.CountsIff | Practica-2/eje-15/bati-juan.c:21-38 | every completed run prints N * VPM iff the lock has the tie-break, or there are fewer than two threads, or VPM is 0 |
| Bakery.LosesOne | Practica-2/eje-15/bati-juan.c:30-35 | as written, for every two or more threads and VPM of at least 1 some completed run prints less than N * VPM |
| Bakery.CanComplete | Practica-2/eje-15/bati-juan.c:25-36 | every state the invariant allows leads on to one in which all threads have finished |
| Bakery.AnyRunCanFinish | Practica-2/eje-15/bati-juan.c:25-36 | any run can be extended to a completed one, and then no visitor is lost |
| Bakery.BothEnter | Practica-2/eje-15/bati-juan.c:30-34 | as written, some schedule of two or more threads brings two of them inside together |
| Bakery.ExcludesIff | Practica-2/eje-15/bati-juan.c:21-38 | the lock excludes in every run iff it has the tie-break, or there are fewer than two threads, or VPM is 0 |
| Bakery.StepKeepsInv | Practica-2/eje-15/bati-juan.c:13-36 | every memory access of every thread keeps the invariant: who has a ticket, and whose ticket is ahead of whose once a wait is passed |
| Bakery.ReachableInv | Practica-2/eje-15/bati-juan.c:41-51 | the invariant holds after every schedule from the initial values of main |
| Bakery.Program.constructor | Practica-2/eje-15/bati-juan.c:42-48 | the arrays start as the initial state |
| Bakery.Program.Doorway | Practica-2/eje-15/bati-juan.c:26-28 | choose, the scan of max with its one or two reads of each slot, and the ticket, each written in place, are the steps of the model |
| Bakery.Program.Wait | Practica-2/eje-15/bati-juan.c:30-33 | the two waits per neighbour, one read at a time, are the steps of the model |
| Bakery.Program.Visit | Practica-2/eje-15/bati-juan.c:34-35 | the visit, as load and store, and the release are the steps of the model |
| Bakery.Program.Run | Practica-2/eje-15/bati-juan.c:41-55 | any interleaving executed on the arrays keeps the invariant; a finished one prints at most N * VPM, and exactly that with the tie-break or one thread |
| PetersonTso.MutualExclusion | Practica-2/eje-4/garden.c:17-47 | under x86-TSO the critical sections never overlap, even counting the time until the cleared flag is visible |
| PetersonTso.VisitVisibleBeforeLoad | Practica-2/eje-4/garden.c:24-26 | when a thread is about to load visitantes no store to it is buffered anywhere, and the value read is the number of visits made |
| PetersonTso.VisitorsExact | Practica-2/eje-4/garden.c:49-62 | every completed run ends with visitantes == 2 * N_VISITANTES |
| PetersonTso.CanComplete | Practica-2/eje-4/garden.c:18-27 | every state the invariant allows leads on to one in which both have finished and all stores have reached memory |
| PetersonTso.AnyRunCanFinish | Practica-2/eje-4/garden.c:17-47 | any run can be extended to a completed one, and then no visit is lost |
| PetersonTso.BothEnter | Practica-2/eje-4/garden.c:19-22 | without mfence a run brings both inside, both flags still buffered |
| PetersonTso.ExcludesIff | Practica-2/eje-4/garden.c:21-22 | the lock excludes in every run iff the fence is there (or nobody enters) |
| PetersonWaiting.OvertakenAtMostOnce | Practica-2/eje-4/garden.c:19-26 | bounded waiting on store buffers: in every run, once both stores of a thread have reached memory, the other one gets past its guard at most once more before the thread does |
| PetersonWaiting.HeldOffUntilIn | Practica-2/eje-4/garden.c:19-22 | and not at all if it still has to store turno or stored it last |
| PetersonWaiting.EntersAlone | Practica-2/eje-4/garden.c:17-22 | while the flag of the other thread is down in memory a thread goes in by its own instructions and stores, whatever the other has buffered |
| PetersonWaiting.StepKeepsWaiting | Practica-2/eje-4/garden.c:31-46 | every instruction and every drained store keeps that bound |
| PetersonTso.RunKeepsInv | Practica-2/eje-4/garden.c:19-26 | each instruction keeps the invariant on store buffers, flags, turn and visits |
| PetersonTso.FlushKeepsInv | Practica-2/eje-4/garden.c:19-26 | each buffered store that reaches memory keeps it |
| PetersonTso.ReachableInv | Practica-2/eje-4/garden.c:8-13 | the invariant holds after every schedule from the initial globals |
| PetersonTso.Program.LoadFrom | Practica-2/eje-4/garden.c:22-24 | a load searches the thread's own buffer from the newest store and falls back to memory |
| PetersonTso.Program.Execute | Practica-2/eje-4/garden.c:17-47 | one instruction of either molinete, executed in place, is the step of the model |
| PetersonTso.Program.Drain | Practica-2/eje-4/garden.c:19-26 | the oldest buffered store written to the globals is the step of the model |
| PetersonTso.Program.RunAll | Practica-2/eje-4/garden.c:49-60 | any interleaving of instructions and drained stores keeps the invariant, and a completed one prints 2 * N_VISITANTES |
| Barber.FifoService | Practica-3/eje-5/sembarb.c:79-99 | in every run the k-th client admitted is the k-th that sat down |
| Barber.TokenNamesNext | Practica-3/eje-5/sembarb.c:52-72 | while the turn token is out turno[sig] names the client seated longest, the token is unique, and a client about to sit uses another chair although the ring wraps |
| Barber.TurnNamesHead | Practica-3/eje-5/sembarb.c:95-99 | the holder of the token leaves the loop iff it is the client seated longest |
| Barber.NeverOvercommitted | Practica-3/eje-5/sembarb.c:49-113 | clientes counts those seated and not gone from their chair and stays at most SILLAS; at most one token, at most one client being cut, and only while the barber cuts or waits to be paid |
| Barber.NeverOutOfBounds | Practica-3/eje-5/sembarb.c:62-102 | pos and sig are chairs whenever turno is indexed with them, and clientes never falls below 0 |
| Barber.EveryoneCanBeServed | Practica-3/eje-5/sembarb.c:49-113 | from every state the invariant allows, whoever is seated or admitted or under the scissors, the run can go on until all who sat down have been cut and have paid, everybody has left, clientes is 0, the barber has finished one round for each of them and sleeps |
| Barber.ShopCanEmpty | Practica-3/eje-5/sembarb.c:49-126 | every run can be extended so |
| Barber.SeatedCanBeServed | Practica-3/eje-5/sembarb.c:79-113 | with somebody waiting for its turn, the run can go on so that the client seated longest is the next admitted and everybody seated now is served in order |
| BarberArrivals.TurnedAwayOnlyWhenFull | Practica-3/eje-5/sembarb.c:80-84 | in every reachable state a client that is leaving because the shop is full has clientes == SILLAS before it |
| BarberArrivals.LeavesServedOrFull | Practica-3/eje-5/sembarb.c:76-113 | in every run a client that has left was cut and paid at some point, or had every chair taken before it |
| BarberArrivals.SitsDown | Practica-3/eje-5/sembarb.c:79-90 | a client at the test with a chair free sits down by its own three steps: clientes one more, its id in turno[pos] and last in the order of arrival, all else as it was |
| BarberArrivals.NewcomerSits | Practica-3/eje-5/sembarb.c:76-90 | with mutex and a chair free a thread that comes in is seated by its own steps |
| BarberArrivals.NewcomerIsServed | Practica-3/eje-5/sembarb.c:76-113 | whenever the chairs taken and the clients about to take one are fewer than SILLAS, a newcomer can be seated, and then it and everybody seated before it can be cut and pay |
| BarberArrivals.ArrivalIsServed | Practica-3/eje-5/sembarb.c:76-141 | the same after every run |
| BarberArrivals.StepKeepsAway | Practica-3/eje-5/sembarb.c:79-84 | every step keeps it so, since clientes changes only under the mutex |
| Barber.ChairsApart | Practica-3/eje-5/sembarb.c:70-71 | chairs of clients fewer than SILLAS places apart in the order of arrival are different |
| Barber.StepKeepsInv | Practica-3/eje-5/sembarb.c:49-113 | every semaphore operation and variable access keeps the invariant on the seven semaphores, the ring and the order |
| Barber.ReachableInv | Practica-3/eje-5/sembarb.c:128-141 | the invariant holds after every schedule from the semaphore values of main |
| Barber.Shop.constructor | Practica-3/eje-5/sembarb.c:128-136 | the globals start as the initial state |
| Barber.Shop.BarberWork | Practica-3/eje-5/sembarb.c:49-74 | barbero_func on the globals is the model's barber |
| Barber.Shop.TakeChair | Practica-3/eje-5/sembarb.c:79-92 | taking a chair, or leaving because clientes == SILLAS, on the globals, is the model's client; who gets a chair is `BarberArrivals.SitsDown` and `TurnedAwayOnlyWhenFull` |
| Barber.Shop.WaitTurn | Practica-3/eje-5/sembarb.c:93-99 | passing the token until turno[sig] matches, on the globals, is the model's client |
| Barber.Shop.GetCut | Practica-3/eje-5/sembarb.c:101-112 | leaving the chair, the cut and the payment, on the globals, are the model's client |
| Barber.Shop.Enters | Practica-3/eje-5/sembarb.c:116-126 | a thread comes back as a new client exactly when it is outside and no live client has the id |
| Barber.Shop.Run | Practica-3/eje-5/sembarb.c:128-143 | any schedule executed on the globals admits clients in the order in which they sat down |
| RingSum.GaussClosed | Practica-5/anillos.erl:20-31 | the sum of all the numbers is n (n - 1) / 2 |
| RingSum.FullSum | Practica-4/eje_8.c:16-22 | the own number and the n - 1 that come round add up to all the numbers, for every process |
| MpiRing.BuffIsOrigin | Practica-4/eje_8.c:13-32 | in every run a process that has received r times holds (p - r) mod n |
| MpiRing.FinalSums | Practica-4/eje_8.c:13-33 | when all loops are over every process has n (n - 1) / 2 and nothing is in transit |
| MpiRing.CallsDecrease | Practica-4/eje_8.c:16-32 | each MPI call that does not wait is one call less of all those left |
| MpiRing.NeverStuck | Practica-4/eje_8.c:16-32 | until all have finished somebody can make its next call |
| MpiRing.WaitsIff | Practica-4/eje_8.c:18-28 | an unfinished process waits iff it is at MPI_Recv and has received all that its source has sent; a send never waits |
| MpiRing.RunsFinish | Practica-4/eje_8.c:16-32 | every run can be continued to the end in exactly the calls left |
| MpiRing.RingNeighbours | Practica-4/eje_8.c:18-28 | the ranks written for process 0 and for the others name the same two neighbours in the ring |
| MpiRing.StepKeepsInv | Practica-4/eje_8.c:16-32 | every call keeps the invariant that ties each channel's contents to the sends and receives of its ends |
| MpiRing.ReachableInv | Practica-4/eje_8.c:13-14 | the invariant holds after every schedule |
| MpiRing.Program.Call | Practica-4/eje_8.c:18-20 | MPI_Send or MPI_Recv on the variables and channels is the step of the model |
| MpiRing.Program.Run | Practica-4/eje_8.c:8-36 | any schedule executed in place keeps the invariant |
| ErlangRing.OnlyFullSums | Practica-5/anillos.erl:14-31 | in any order of delivery get_sum only ever returns n (n - 1) / 2, and no process is killed with a partial sum |
| ErlangRing.SumsAndLeftovers | Practica-5/anillos.erl:14-55 | when all counters are 0 every process has the full sum and exactly one number left unread: its own |
| ErlangRing.WorkDecreases | Practica-5/anillos.erl:33-55 | every arrival and every receive of the ring leaves less to do; no action of the server or its clients adds any |
| ErlangRing.NeverStuck | Practica-5/anillos.erl:14-55 | while a counter is not 0 a message can arrive or a process can receive |
| ErlangRing.RingFinishes | Practica-5/anillos.erl:14-55 | every state the invariant allows leads on to one with all counters 0, a waiting request still waiting |
| ErlangRing.AnswerArrives | Practica-5/anillos.erl:69-78 | with the sums done a request the server has taken travels to the process and back to the client that asked |
| ErlangRing.GetSumIsAnswered | Practica-5/anillos.erl:69-100 | however early a request is taken up, the run can go on until its client has the full sum |
| ErlangRing.GetSumInTurn | Practica-5/anillos.erl:69-100 | any request waiting in the server's mailbox, with no close and no impossible request ahead of it, can be answered with the full sum |
| ErlangClose.CloseEndsAll | Practica-5/anillos.erl:69-83 | from every state the invariant allows in which the server, not closed yet, finds a close first, the run can go on until the server has ended, each of the n processes has its full sum and has been killed, and the caller has been sent its ok |
| ErlangClose.CloseCanEnd | Practica-5/anillos.erl:69-107 | after every run, a close waiting at the server with only possible requests ahead of it can end so |
| ErlangClose.StepKeepsClosing | Practica-5/anillos.erl:80-83 | once the server has ended no step brings it back, answers anybody or loses a kill that a process still has coming |
| ErlangClose.StoppedForGood | Practica-5/anillos.erl:80-83 | after the server has ended no run answers anybody |
| ErlangClose.ImpossibleRequestEndsServer | Practica-5/anillos.erl:72-73 | a request for a process that is not in the map ends the server, with no answer and no kill |
| ErlangRing.StepKeepsInv | Practica-5/anillos.erl:14-83 | every delivery and receive keeps the invariant on mailboxes, channels and partial sums; what `close` brings about is `ErlangClose.CloseEndsAll` |
| ErlangRing.StepKeepsLive | Practica-5/anillos.erl:69-83 | as long as the server has not ended no kill is about, and whatever it waits for is on its way; afterwards it is `ErlangClose.StepKeepsClosing` that holds |
| ErlangRing.ReachableInv | Practica-5/anillos.erl:58-66 | the invariant holds after every schedule from n processes just spawned |
| ErlangRing.Match | Practica-5/anillos.erl:14-55 | selective receive takes the oldest message that a pattern of the current clause matches |
| ReadersWriters.WriterExcludesAll | Practica-3/eje-4/fifo-priority/read_write.c:11-50 | in both variants a writer inside excludes every reader and every other writer |
| ReadersWriters.NoTornRead | Practica-3/eje-4/fifo-priority/parnas.c:20-45 | the array is uniform whenever no writer is inside, and "error de lectura" is never printed, for any array length and any threads |
| ReadersWriters.NeverAllWaiting | Practica-3/eje-4/write-priority/read_write.c:24-63 | in both variants, with spurious wake-ups, never is every thread waiting on the condition variable, and some thread can take a step |
| ReadersWriters.BroadcastWakesAll | Practica-3/eje-4/write-priority/read_write.c:38-57 | after each broadcast nobody is left waiting: whoever waited is about to lock the mutex again, and nobody else has moved |
| ReadersWriters.SignalWakesOne | Practica-3/eje-4/fifo-priority/read_write.c:25-44 | each signal wakes exactly one waiting thread if there is one, which is about to lock the mutex again, and nobody else moves |
| ReadersWriters.WriterFillsAll | Practica-3/eje-4/fifo-priority/parnas.c:20-24 | in every run a writer that is about to unlock has its number in every cell |
| ReadersWriters.ReaderReadsAll | Practica-3/eje-4/fifo-priority/parnas.c:35-45 | in every run a reader that is about to unlock has looked at every cell, and each still holds its datum |
| ReadersWriters.ReaderJoins | Practica-3/eje-4/write-priority/read_write.c:44-55 | with no writer registered and mutex and semaphore free a reader goes in by its own steps, beside any readers inside |
| ReadersWriters.WriterGoesIn | Practica-3/eje-4/write-priority/read_write.c:28-36 | with no reader inside and mutex and semaphore free a registered writer goes in by its own steps, whatever other writers wait |
| ReadersWritersProgress.EveryoneGetsThrough | Practica-3/eje-4/fifo-priority/read_write.c:11-50 | from every state the invariant allows, without spurious wake-ups, everybody inside can leave and everybody waiting in write_lock or read_lock can get through its call and leave |
| ReadersWritersProgress.AnyoneCanEnter | Practica-3/eje-4/write-priority/read_write.c:24-63 | in both variants, after every schedule, any thread can be brought inside without spurious wake-ups, although read_unlock wakes nobody |
| ReadersWriters.StepKeepsInv | Practica-3/eje-4/write-priority/read_write.c:24-63 | every step keeps the invariant on mutex, semaphore, counters, wait set and array |
| ReadersWriters.ReachableInv | Practica-3/eje-4/fifo-priority/parnas.c:50-61 | the invariant holds after every schedule of any readers and writers |
| ReadersWriters.Program.constructor | Practica-3/eje-4/write-priority/read_write.c:14-22 | the lock and the array start as the initial state |
| ReadersWriters.Program.CondSignal | Practica-3/eje-4/fifo-priority/read_write.c:27 | signal wakes the one thread picked |
| ReadersWriters.Program.CondBroadcast | Practica-3/eje-4/write-priority/read_write.c:40 | broadcast leaves nobody waiting: every waiting thread is about to lock the mutex again, no other thread changes |
| ReadersWriters.Program.WriterStep | Practica-3/eje-4/write-priority/read_write.c:24-42 | write_lock, the filling of the array and write_unlock, in place, are the steps of the model |
| ReadersWriters.Program.ReaderStep | Practica-3/eje-4/write-priority/read_write.c:44-63 | read_lock, the scan of the array and read_unlock, in place, are the steps of the model |
| ReadersWriters.Program.Ready | Practica-3/eje-4/fifo-priority/read_write.c:11-50 | decides whether a thread is blocked |
| ReadersWriters.Program.RunAll | Practica-3/eje-4/fifo-priority/parnas.c:50-65 | no schedule executed in place prints "error de lectura" |
| Dining.NeighboursExclude | Practica-3/eje-2/filosofos_hambrientos.c:30-52 | in all four programs two neighbours never eat at once |
| Dining.PlainDeadlock | Practica-3/eje-2/filosofos_hambrientos.c:30-37 | a reachable state of the plain program is deadlocked iff everybody holds the right fork and waits for the left |
| Dining.PlainCanDeadlock | Practica-3/eje-2/filosofos_hambrientos.c:30-37 | for every N >= 2 such a state is reached |
| Dining.AdmissionNeverDeadlocks | Practica-3/eje-2/filosofos_hambrientos_sem.c:29-50 | with N - 1 admitted no reachable state is deadlocked |
| Dining.LeftHandedNeverDeadlocks | Practica-3/eje-2/filosofos_hambrientos_zurdo.c:27-66 | with one left-handed philosopher somebody can always go on |
| Dining.BackOffWaitsForEater | Practica-3/eje-2/filosofos_hambrientos_soltar.c:31-46 | with the back-off, whoever waits for a fork waits for one who eats or is putting forks down and can step |
| Dining.BackOffNeverDeadlocks | Practica-3/eje-2/filosofos_hambrientos_soltar.c:31-59 | so no reachable state is deadlocked |
| Dining.DeadlockIff | Practica-3/eje-2/filosofos_hambrientos.c:30-42 | of the four programs exactly the plain one has a run that deadlocks |
| DiningProgress.HungryUntilEating | Practica-3/eje-2/filosofos_hambrientos_soltar.c:31-53 | in every run a philosopher that has passed the loop test, one that backed off included, is still after its forks or has eaten: it never goes on without a meal |
| DiningProgress.NobodyStarvesIff | Practica-3/eje-2/filosofos_hambrientos.c:30-52 | of the four programs exactly the plain one has a run after which a hungry philosopher can never eat any more |
| DiningProgress.HungryCanEat | Practica-3/eje-2/filosofos_hambrientos_soltar.c:31-53 | in the other three, from every state the invariant allows, whoever is after its forks can be brought to eat |
| DiningProgress.CanSettle | Practica-3/eje-2/filosofos_hambrientos_sem.c:29-50 | in the other three, from every such state, everybody can be brought to put down its forks and to leave |
| DiningProgress.SomeHolderMoves | Practica-3/eje-2/filosofos_hambrientos_zurdo.c:27-66 | in the other three, where somebody has a fork somebody who has one can go on |
| DiningProgress.EnterWaits | Practica-3/eje-2/filosofos_hambrientos_sem.c:43 | a philosopher waits at the semaphore iff N - 1 have been admitted |
| DiningProgress.GivesBackIff | Practica-3/eje-2/filosofos_hambrientos_soltar.c:34-39 | a trylock fails, and the right fork is given back, iff the neighbour has the left one |
| Dining.MealsAtTheEnd | Practica-3/eje-2/filosofos_hambrientos_soltar.c:47-59 | two philosophers stop with the limit of meals or one more: the forks alone make the counter exclusive |
| Dining.BothMealCounts | Practica-3/eje-2/filosofos_hambrientos_soltar.c:50-53 | both counts happen |
| Dining.StepKeepsInv | Practica-3/eje-2/filosofos_hambrientos_zurdo.c:27-66 | every lock, unlock and semaphore operation of the four programs keeps the invariant on forks and admissions |
| Dining.ReachableInv | Practica-3/eje-2/filosofos_hambrientos_sem.c:52-60 | the invariant holds after every schedule |
| Dining.Program.TakeForks | Practica-3/eje-2/filosofos_hambrientos_soltar.c:31-41 | taking the forks, with trylock and back-off, in place, is the step of the model |
| Dining.Program.EatAndDrop | Practica-3/eje-2/filosofos_hambrientos_soltar.c:42-56 | eating, counting the meal as load and store and dropping the forks, in place, are the steps of the model |
| Dining.Program.Act | Practica-3/eje-2/filosofos_hambrientos_sem.c:39-50 | one step of a philosopher's loop, in place, is the step of the model |
| Dining.Program.Run | Practica-3/eje-2/filosofos_hambrientos.c:54-64 | after any schedule executed in place only the plain program can be deadlocked, everybody holding one fork |
| AtomicStack.NextConserves | Practica-3/eje-3/cons_prod_sem.c:11-17 | an atomic push or pop keeps sent == received + stored + in flight for every pointer, and the capacity |
| AtomicStack.DeliveredOnce | Practica-3/eje-3/cons_prod_sem.c:46-72 | a pointer sent once is received at most once and not while it is stored |
| SemaphoreBuffer.StepRefines | Practica-3/eje-3/cons_prod_sem.c:23-44 | every step of enviar and recibir is one atomic step on a stack of capacity SZ, or invisible |
| SemaphoreBuffer.Conservation | Practica-3/eje-3/cons_prod_sem.c:23-72 | in every run each pointer sent is received, stored or in flight exactly as often, and the array never overflows |
| SemaphoreBuffer.NeverAllBlocked | Practica-3/eje-3/cons_prod_sem.c:78-86 | free slots, stored items and those in hand add up to SZ, and with a producer and a consumer somebody can always go on |
| SemaphoreBuffer.ProducerWaitsIff | Practica-3/eje-3/cons_prod_sem.c:25 | in every reachable state a producer waits for its slot iff the pointers stored and the slots in other hands add up to SZ |
| SemaphoreBuffer.ConsumerWaitsIff | Practica-3/eje-3/cons_prod_sem.c:37 | in every reachable state a consumer waits iff every pointer stored is claimed by another or not announced yet |
| SemaphoreBuffer.SendsAlone | Practica-3/eje-3/cons_prod_sem.c:23-32 | with a slot and the lock free a producer's own steps complete enviar: its pointer is on top of the stack, one slot less and one item more, all else as before |
| SemaphoreBuffer.ReceivesAlone | Practica-3/eje-3/cons_prod_sem.c:34-44 | with an item and the lock free a consumer's own steps return the pointer on top of the stack |
| SemaphoreBuffer.BufferCanFill | Practica-3/eje-3/cons_prod_sem.c:78-80 | a producer alone sends any SZ pointers without waiting, and the stack is these in order |
| SemaphoreBuffer.NeverOutOfBounds | Practica-3/eje-3/cons_prod_sem.c:23-44 | no thread ever writes or reads outside the array or takes pos_buffer below 0 |
| SemaphoreBuffer.StepKeepsInv | Practica-3/eje-3/cons_prod_sem.c:23-44 | every semaphore operation and array access keeps the invariant |
| SemaphoreBuffer.ReachableInv | Practica-3/eje-3/cons_prod_sem.c:74-86 | the invariant holds after every schedule |
| SemaphoreBuffer.Program.Enviar | Practica-3/eje-3/cons_prod_sem.c:23-32 | enviar on the globals is the model's producer; when it waits and what it leaves are `ProducerWaitsIff` and `SendsAlone` |
| SemaphoreBuffer.Program.Recibir | Practica-3/eje-3/cons_prod_sem.c:34-44 | recibir on the globals is the model's consumer |
| SemaphoreBuffer.Program.Run | Practica-3/eje-3/cons_prod_sem.c:74-90 | any schedule executed on the globals conserves every pointer |
| MonitorBuffer.StepRefines | Practica-3/eje-3/cons_prod_cv.c:21-46 | every step of the monitor version is one atomic step on the same stack, or invisible |
| MonitorBuffer.Conservation | Practica-3/eje-3/cons_prod_cv.c:21-74 | in every run each pointer sent is received, stored or in flight exactly as often, and the array never overflows |
| MonitorBuffer.NeverOutOfBounds | Practica-3/eje-3/cons_prod_cv.c:21-46 | no thread ever writes or reads outside the array or takes pos_buffer below 0 |
| MonitorBuffer.WaitsOnlyIf | Practica-3/eje-3/cons_prod_cv.c:24-40 | in every reachable state a producer goes to wait on the condition variable only when the buffer is full, a consumer only when it is empty |
| MonitorBuffer.SignalWakesOne | Practica-3/eje-3/cons_prod_cv.c:28-44 | the signal that ends a call wakes exactly one waiting thread if there is one, and nobody else moves |
| MonitorBuffer.SendsAlone | Practica-3/eje-3/cons_prod_cv.c:21-30 | with the mutex and room free a producer does not wait: its own steps put the pointer on top of the stack |
| MonitorBuffer.ReceivesAlone | Practica-3/eje-3/cons_prod_cv.c:34-44 | with the mutex free and something stored a consumer does not wait: its own steps take the top of the stack |
| MonitorBuffer.StepKeepsInv | Practica-3/eje-3/cons_prod_cv.c:21-46 | every step keeps the invariant on mutex, position and array |
| MonitorBuffer.ReachableInv | Practica-3/eje-3/cons_prod_cv.c:76-87 | the invariant holds after every schedule |
| MonitorBuffer.Program.CondSignal | Practica-3/eje-3/cons_prod_cv.c:30 | signal wakes the one thread picked |
| MonitorBuffer.Program.Enviar | Practica-3/eje-3/cons_prod_cv.c:21-32 | enviar on the globals is the model's producer |
| MonitorBuffer.Program.Recibir | Practica-3/eje-3/cons_prod_cv.c:34-46 | recibir on the globals is the model's consumer |
| MonitorBuffer.Program.Run | Practica-3/eje-3/cons_prod_cv.c:76-91 | any schedule executed on the globals conserves every pointer |
| CountingSemaphore.NextConserves | Practica-5/sync.erl:34-57 | free places plus holders never change |
| SyncServers.StepRefines | Practica-5/sync.erl:7-57 | until it is destroyed every step of a server and its clients is one of a counting semaphore; the nested wait at 0 is a release followed at once by an acquire |
| SyncServers.CapacityKept | Practica-5/sync.erl:111-131 | in every run at most the capacity of clients are between grant and return, and free places plus holders equal it |
| SyncServers.CapacityCanBeUsed | Practica-5/sync.erl:48-52 | a semaphore is used to the full: for each k up to its capacity and the number of clients some run has exactly k clients inside at once |
| SyncServers.EntersAlone | Practica-5/sync.erl:7-71 | from every state the invariant allows with a place left and an empty mailbox, a client that asks goes in by its own steps, the server taking one request, and one place is gone |
| SyncServers.LockExcludes | Practica-5/sync.erl:7-28 | at most one client of the lock is between grant and unlock |
| SyncServers.DestStrandsNobody | Practica-5/sync.erl:85-101 | the server ends only when every client has finished |
| SyncServers.NeverStuck | Practica-5/sync.erl:7-57 | unless its capacity is 0 and there are clients, until the server is gone some client, message, waiter or server can go on |
| SyncServers.CanFinish | Practica-5/sync.erl:75-121 | unless the capacity is 0 and there are clients, every state the invariant allows leads on to one in which all clients have finished and the server is gone |
| SyncServers.EveryoneCanFinish | Practica-5/sync.erl:103-131 | with a capacity of at least 1, or no clients, any run of n clients can be extended so that all of them get through |
| SyncServers.FinishIff | Practica-5/sync.erl:34-60 | every run can be finished iff the capacity is at least 1 or there are no clients: with createSem(0) every client asks for ever |
| SyncServers.WorkDecreases | Practica-5/sync.erl:7-121 | every step that happens leaves less to do, so no run goes on for ever |
| SyncServers.StepKeepsInv | Practica-5/sync.erl:7-121 | every step keeps the invariant: each client has at most one message outstanding, of the kind its phase expects |
| SyncServers.ReachableInv | Practica-5/sync.erl:103-131 | the invariant holds after every schedule |
| SyncServers.Match | Practica-5/sync.erl:7-57 | selective receive takes the oldest message that a pattern of the current receive matches |
| RacingCounter.OutcomesExactly | Practica-2/eje-6/garden_ingenuo.c:10-15 | two threads of n >= 2 increments end with v iff 2 <= v <= 2n |
| RacingCounter.LoseAtBothEnds | Practica-2/eje-7/garden_sleep.c:13-29 | the schedule the sleeps aim at leaves 2, and with m increments of thread 0 let through it leaves 2 + m, for every m < n |
| RacingCounter.LoseAtTheStart | Practica-2/eje-7/garden_sleep.c:15-28 | one early store swallows any j increments of the other thread and nothing else |
| RacingCounter.ReachableInv | Practica-2/eje-6/garden_ingenuo.c:17-25 | the bounds behind the lower limit hold after every schedule |
| RacingCounter.Program.Access | Practica-2/eje-7/garden_sleep.c:21-25 | the load or the store in place is the step of the model |
| RacingCounter.Program.Run | Practica-2/eje-7/garden_sleep.c:33-46 | any complete schedule executed in place ends within the bounds |
| MatrixProduct.MultSec | Practica-4/eje_4.c:46-55 | leaves old C + A * B |
| MatrixProduct.MultPar | Practica-4/eje_4.c:11-20 | leaves old C + A * transpose(B) for every order of the rows |
| MatrixProduct.MultParInd1 | Practica-4/eje_4.c:23-32 | leaves old C + A * B for every order of the rows, the inner loops interchanged |
| MatrixProduct.MultParInd2 | Practica-4/eje_4.c:35-44 | leaves old C + A * B for every order of the columns |
| MatrixProduct.SweepRow | Practica-4/eje_4.c:27-29 | one outer iteration adds the whole product to its row and touches no other |
| MatrixProduct.SweepColumn | Practica-4/eje_4.c:39-41 | one outer iteration adds the whole product to its column and touches no other |
| MatrixProduct.Execute | Practica-4/eje_4.c:11-55 | any list with each of the n^3 statements once, in any order the threads interleave them, leaves old C + A * B, or old C + A * transpose(B) with the read of mult_par |
| MatrixProduct.AddedIsWeighted | Practica-4/eje_4.c:29 | what a list of statements adds to a cell depends only on how often each statement occurs, not on the order |
| MatrixProduct.FitsIff | Practica-4/eje_4.c:57-70 | with N = 1000 and entries in 0..999, no cell overflows a 32-bit int during n successive multiplications from C == 0 iff n <= 2 |
| Lexer.TokensOfLine | Practica-1/MiniShell/Structures/parsing.c:20-62 | splitting a line with a delimiter after each token gives the tokens back |
| Lexer.Split | Practica-1/MiniShell/Structures/parsing.c:20 | the pieces strtok returns are non-empty and hold no delimiter; which they are is `SplitAtDelimiter` with `SplitWord` |
| Lexer.SplitAtDelimiter | Practica-1/MiniShell/Structures/parsing.c:20-62 | for all a and b, cutting a, a delimiter and b gives the pieces of a and then those of b |
| Lexer.SplitWord | Practica-1/MiniShell/Structures/parsing.c:20 | a line without delimiters is one piece to its end, an empty line none |
| Lexer.TokensOfTyped | Practica-1/MiniShell/Structures/parsing.c:20-62 | splitting a line of tokens with delimiters only between them, as it is typed, gives the tokens back |
| Pipeline.CutJoined | Practica-1/MiniShell/Structures/parsing.c:46-59 | cutting a line at its pipes loses nothing, leaves no pipe in a stretch and gives one more stretch than pipes |
| Pipeline.CutUnique | Practica-1/MiniShell/Structures/parsing.c:46-59 | pipe-free stretches joined by pipes are cut back into themselves |
| Pipeline.BadIff | Practica-1/MiniShell/Structures/parsing.c:36-52 | a line is refused iff a stretch between two pipes is empty or some ">" has no file name after it in its stretch |
| Pipeline.PrintRoundTrip | Practica-1/MiniShell/Structures/parsing.c:35-64 | a printed pipeline is cut into as many stretches as commands, each with the words and the redirection of its command; it is refused iff a command but the first and last is empty |
| Parser.PrintedIsUnderstood | Practica-1/MiniShell/Structures/parsing.c:19-75 | what parsing_input returns for a pipeline written out as text, with or without a delimiter at the end, is that pipeline, command by command |
| Parser.PrintedIsRefusedIff | Practica-1/MiniShell/Structures/parsing.c:50-51 | a pipeline written out as text, with or without a delimiter at the end, is refused iff a command but the first and last is empty |
| Parser.ParsingInput | Practica-1/MiniShell/Structures/parsing.c:19-75 | the four outcomes on any line: nothing, END_LINE, failure exactly on the lines described by Bad and at the first such place, or one command per stretch with its words in order and its last redirection, every open descriptor held by exactly one command |
| Parser.ParseTokens | Practica-1/MiniShell/Structures/parsing.c:26-75 | the same from the first token on; on failure exactly the descriptor of the command being read stays open, if it has one |
| Parser.LeakIff | Practica-1/MiniShell/Structures/parsing.c:65-68 | after a failure all descriptors are closed iff the command being read has no redirection |
| Parser.LeakExample | Practica-1/MiniShell/Structures/parsing.c:36-52 | the line `> f (pipe) (pipe)` is refused at its first pipe with a redirection pending |
| Parser.ReadToken | Practica-1/MiniShell/Structures/parsing.c:35-64 | one turn of the loop keeps what is stored, the list and the open descriptor in step with the tokens read |
| Parser.AddWord | Practica-1/MiniShell/Structures/parsing.c:60-63 | a plain token joins the list and the loop invariant moves on by one token |
| Parser.Reopen | Practica-1/MiniShell/Structures/parsing.c:41-44 | a second redirection closes the first, so the command holds one descriptor |
| Parser.EndCommand | Practica-1/MiniShell/Structures/parsing.c:53-58 | a pipe stores the command of the stretch it ends and empties the list |
| Parser.Push | Practica-1/MiniShell/Structures/parsing.c:54-58 | the array never overflows as it doubles and keeps the commands stored |
| Parser.CmdsDestroy | Practica-1/MiniShell/Structures/command.c:33-42 | every descriptor of the stored commands is closed, each once |
| TokenList.List.constructor | Practica-1/MiniShell/Structures/list.c:6-12 | a new list is empty |
| TokenList.List.Add | Practica-1/MiniShell/Structures/list.c:14-30 | the token comes first or last and the others keep their order |
| TokenList.List.Destroy | Practica-1/MiniShell/Structures/list.c:32-47 | every node is freed once, in order, none read after it is freed, and the list is empty |
| TokenList.List.ToCmd | Practica-1/MiniShell/Structures/list.c:49-61 | a fresh array with the tokens in order and a final NULL, or none for an empty list |

## Left out

- Fairness and starvation of mutexes, semaphores, condition variables and the back-off loop: progress is stated as "can always be continued", not as "is eventually served". Bounded waiting is proved for the bakery and for Peterson's lock.
- Progress of `cons_prod_cv.c`: one condition variable is shared by both sides, so only safety is claimed.
- The id printed while cutting (`Practica-3/eje-5/sembarb.c:62`): the chair may already be reused, so nothing is said about it.
- The mailboxes of the clients of `anillos.erl`: a sum or the ok of `close` is recorded when the server sends it.
- A request to `srv` for a process that does not exist ends the server in the model as `maps:get` does; supervisors and links are not modelled.
- `Practica-3/eje-6/fumancheros.c` (its `sem_trywait` tests are inverted) and `Practica-3/eje-5/barberia.c` (a newcomer can overwrite the chair at `sig`).
- `Practica-1/Server`, `Practica-5/cliente.c`, `Practica-5/turnos.erl`: sockets, file locks and process plumbing.
- `Practica-1/MiniShell/Structures/main.c` and process creation in `command.c`; of `command.c` only `cmd_make` and `cmds_destroy` are used.
- Memory allocation: `malloc` never fails, freed nodes are only recorded by `TokenList.List.Destroy`, and the error messages of the parser are not modelled.
- The duplicates in `Practica-2/eje-8` and of `parnas.c`, the signal exercises, assembly listings, OpenMP toys and `timing.h`.
