# hcproxy: a model and its proofs

hcproxy is a CONNECT proxy: it accepts a connection, reads one request, resolves the host, connects, and
then forwards bytes both ways through two kernel pipes. This project models the five parts of it that are
hard to get right, and proves what they promise, for every input and every interleaving.

| part | model | what is proved over every run | the code's own form |
|---|---|---|---|
| forwarding (`src/forwarder.cc`) | `ForwarderModel` | `ForwarderProofs`, `ForwarderReturns`, `ForwarderOutcomes` | `Forwarder`: classes `LinkEventHandler`, `Buffer`, `Socket`, `EventLoop` |
| event loop (`src/event_loop.cc`, `src/event_loop.h`, `src/list.cc`) | `EventLoopModel` | `EventLoopProofs`, `EventLoopTheorems` | `EventLoop`: classes `EventHandler`, `List`, `EventLoop` |
| thread pool (`src/thread_pool.cc`, `src/thread_pool.h`) | `ThreadPoolModel` | `ThreadPoolProofs` | `ThreadPool`: class `ThreadPool` |
| forwarding in its event loop | both of the above | `ForwarderClient`, `ForwarderInLoop` | |
| DNS cache (`src/dns.cc`, `src/dns.h`) | `DnsModel` | `DnsProofs`, `DnsTheorems`, `DnsAnswers`, `DnsFreshness`, `DnsLifetime` | `DnsResolver`: classes `AddrInfo`, `CacheData`, `DnsResolver` |
| request reader (`src/parser.cc`) | `ParserModel` | `ParserProofs` | `Parser`: class `ParseEventHandler` |

`Common` holds what several parts use.

## How it is built

Each part has a model: a state as a value, a total function `Step` over it, and `Run`, which takes any
sequence of steps. A step is what one thread does between two points at which something else can happen: a
lock-held section, an event handler, one system call of the kernel. The kernel, the network, the clock,
other threads and the clients' code are labels of `Step` or oracles that its steps read, so a statement
about `Run` is a statement about every schedule. A field `failed` records that a CHECK did not hold, that a
deleted object or closed descriptor was used, or that an iterator was stale; that it stays false is part of
what is proved.

The forwarder is modelled with as much of the event loop as it sees, so that its own invariants can be
stated, and the event loop is modelled for any clients. `ForwarderInLoop` relates the two: as long as a loop
serves a pair of links, the two models agree on registration, reference counts, deletion, deadlines, event
masks and batch entries between the loop's steps. Every entry delivered to a link and every expiry of one is
a run of the loop whose client calls are all allowed, and every other step leaves the pair alone. So the
invariants of both hold together, of one system.

Beside the model stands the code's own form: classes whose fields change in place, and loops where the source
has loops. Each method is proved to change the state as the model's function says (`ensures View() ==
Step(old(View()), ...)` or the like), and its `assert`s are the source's CHECKs. So what is proved of the
runs of the model holds of what the methods do.

Assumptions about the kernel:

- A pipe's capacity is at least what was asked for, and the client's pipe holds the 19 bytes of the response.
- `splice` from a socket moves between 1 byte and the free space, or reports end of file, EAGAIN or an error.
  EAGAIN is possible although bytes are there when the pipe, not being empty, has no free slot. `splice` to
  a socket moves between 1 byte and what is buffered, or reports EAGAIN or an error, which may have cleared
  the pipe.
- An edge-triggered notification is queued when bytes or an end of file arrive, when a socket becomes
  writable again, and when an interest set is installed while the socket is ready. One that the event mask
  no longer asks for may be dropped.
- epoll reports only descriptors of its interest set, each at most once in a batch, and of each only what the
  interest set asks for, apart from errors and hang-ups. The clock does not go back.

## Where the code does not do what is said of it

- `src/forwarder.cc:178` says that `Process` returns true if data has moved and the link is not broken. The
  two forwarding calls are joined by `|`, so it can also return true of a broken pair: for an event of a
  reachable pair, some behaviour of the kernel makes it do so if and only if the event is for both directions
  without an error and both links are still open for writing (`ForwarderReturns.TrueThoughBrokenIff`;
  `ForwarderReturns.TrueThoughBrokenHappens` has a run of it, and `ForwarderReturns.TrueThoughBroken` says what
  the two calls then did). The refresh that comes next is harmless because `Refresh` looks at the flags first.
  C++ does not fix which operand runs first; the model allows both. An end of file that is passed on counts as
  data too: `ForwarderProofs.ForwardResult` says exactly when a single forwarding call returns true.
- `src/dns.cc:115`: the default time of the last lookup is the clock's epoch. If the clock reads less than the
  refresh period, the first run of an entry answers null without any lookup. `DnsTheorems.FirstAnswerLooksUp`
  shows that this cannot happen if and only if the clock starts at a refresh period or more.
- `src/dns.h:52-55` says that an entry is kept for the refresh duration after every Resolve. For a callback
  that waits for the entry's first lookup that is so if and only if its Resolve has read the clock no later
  than the lookup ended, because `src/dns.cc:134` uses the entry at the time of the lookup and not at that of the
  call (`DnsLifetime.KeptForTheWaiting`; `DnsLifetime.ErasedEarly` is a run in which the entry is erased too
  early). A Resolve that is answered directly does keep it (`DnsLifetime.KeptWhileUsed`). In general an entry
  that has served its first callbacks is kept for the duration after a given time if and only if its last use
  is not before that time, or the duration is already over (`DnsLifetime.KeptExactly`).
- `src/parser.cc:94` looks for the terminator only where a read ends. The result is independent of how the
  stream is cut into reads if and only if what the reader can see does not begin with the prefix, has no
  terminator, ends with one, or names no host (`ParserProofs.ChunkIndependence`).
- `src/parser.cc:76` fails if the maximum request size is 0, and only then (`ParserProofs.SafeIfRoom`).

## Model

| member | source | states |
|---|---|---|
| ForwarderProofs.ReachInv | src/forwarder.cc:148-310 | In every state of every run no CHECK has failed, and the two half-close state machines agree: a readable source has an open write end, a writable sink an open read end, a sink that is no longer writable has had everything, the event mask mirrors the flags, and a link is registered as long as either flag holds |
| ForwarderProofs.EndToEnd | src/forwarder.cc:72-140 | At every moment the client has been sent a prefix of the response and the server's stream, the server a prefix of the client's stream; what has been read and not sent is in the buffer, in order; a direction that shuts down without error or timeout has delivered its whole stream |
| ForwarderProofs.EndIsTold | src/forwarder.cc:259-293 | In every run the remote end is told by shutdown() or close() that nothing more will come exactly when the link is no longer writable; one told by shutdown() has been sent everything, even if the connection breaks later, and shutdown for reading leaves nothing unread |
| ForwarderProofs.NoLostEdge | src/forwarder.cc:172-195 | Whenever bytes or an end of file could move in a direction, the edge-triggered notification that makes the loop move them is queued or in the current batch |
| ForwarderProofs.NeverHangs | src/forwarder.cc:177-299 | When both streams have arrived, the sockets accept data and no notification that an event mask asks for is left, half-closed links included, both links are closed and deleted, and without error or timeout both streams were delivered completely |
| ForwarderProofs.Destruction | src/forwarder.cc:284-299 | A link's reference count is its registration, the other link's being open, and its batch entry; it is deleted exactly when none is left; each of its three descriptors is closed at most once, and exactly once by then |
| ForwarderProofs.RunKeeps | src/event_loop.cc:99-128 | Every step, of either link, of the kernel, of the batch or of the expiry sweep, keeps the whole invariant, from any state that satisfies it |
| ForwarderProofs.ForwardSafe | src/forwarder.cc:211-257 | The forwarding loop ends within 2 * (bytes to come) + bytes buffered + open pipe ends iterations that find something to do; when it returns, its direction is stuck on the kernel, and the opposite direction has lost no notification |
| ForwarderProofs.ForwardResult | src/forwarder.cc:209-257 | ForwardFromOther returns true exactly when bytes or an end of file went further and the pair did not break |
| ForwarderProofs.ProcessSafe | src/forwarder.cc:179-188 | Handling an event keeps the invariant and all notifications, in whichever order the two operands run |
| ForwarderReturns.TrueThoughBrokenIff | src/forwarder.cc:178-188 | In every reachable state in which an event is handled, Process can return true of a pair that it breaks if and only if the event is for both directions without an error and both links are still open for writing |
| ForwarderReturns.TrueThoughBroken | src/forwarder.cc:178-188 | When it does, the first call has moved something and the second one has broken the pair |
| ForwarderReturns.TrueThoughBrokenHappens | src/forwarder.cc:178-188 | A run of it: the response goes out to the client, then reading from the client fails |
| ForwarderOutcomes.ResultIsProgress | src/forwarder.cc:178-188 | An event that does not break the pair has the result true exactly when bytes, or an end of file, moved in either direction |
| ForwarderOutcomes.ProgressRestartsTimers | src/forwarder.cc:189-194 | In every run, an event that moves either direction and does not end the pair sets the deadline of every link still open to a full timeout from now; one that moves nothing leaves the deadlines alone |
| ForwarderOutcomes.TerminatedIff | src/forwarder.cc:225-246 | In every run the pair is terminated, discarding what is buffered, if and only if splice() has reported an error, or an error event or an expiry has been handled |
| ForwarderReturns.WorkIsBounded | src/forwarder.cc:177-195 | In a whole run at most 2 * (bytes of both streams) + 19 + 4 events have a result of true, whatever the order of events and however small the pieces |
| ForwarderInLoop.StartFollows | src/forwarder.cc:151-174 | New, called from any code that the loop runs, makes only calls that the loop allows, and afterwards the loop serves the new pair: both models agree and both invariants hold |
| ForwarderInLoop.DeliverFollows | src/event_loop.cc:107-116 | When the loop comes to an entry for a link, whatever the kernel does meanwhile, the link's OnEvent consists of calls that the loop allows at their turn; with the loop's own reference counting it ends where the pair's model says, deletion included |
| ForwarderInLoop.ExpireFollows | src/event_loop.cc:118-126 | The same for OnTimeout when the sweep finds a link expired |
| ForwarderInLoop.CollectFollows | src/event_loop.cc:101-106 | A batch that epoll_wait returns gives the loop's handlers and the links the same references and entries |
| ForwarderInLoop.MeaningOfBits | src/forwarder.cc:180-187 | Bit by bit, what OnEvent reads from the events of an entry: EPOLLIN, EPOLLOUT and EPOLLERR, and nothing from the rest |
| ForwarderInLoop.MaskIsRead | src/forwarder.cc:172-173 | For all flags, what a link asks for in the interest set is what it reads from an event with those bits, and it asks for edges |
| ForwarderInLoop.ToldWhatItAsks | src/forwarder.cc:264-276 | A link is told of input only while it is readable and of output only while it is writable, so a half-closed link never hears of the direction it has closed |
| ForwarderInLoop.OthersFollow | src/event_loop.cc:99-128 | Every other step of the loop and of its other clients leaves the two links alone, and time passes for both models |
| ForwarderClient.OnEventFollows | src/forwarder.cc:177-195 | OnEvent in every branch is a sequence of operations of the event loop, each allowed when its turn comes |
| ForwarderClient.CloseFollows | src/forwarder.cc:283-293 | Close gives back the reference on the other link and leaves the loop by operations that the loop allows, and both models count the same afterwards |
| ForwarderProofs.OnEventSafe | src/forwarder.cc:177-195 | OnEvent keeps the invariant, gives back the reference it takes, and never touches a deleted link |
| ForwarderProofs.OnTimeoutSafe | src/forwarder.cc:197-202 | OnTimeout closes both links and keeps the invariant |
| ForwarderProofs.TimerRule | src/forwarder.cc:190-193 | An event handled with result true restarts the timers of the links that are still open; any other event leaves both deadlines alone |
| ForwarderProofs.TerminateSafe | src/forwarder.cc:295-299 | Terminate, from any state in between, closes both links without a CHECK failing or a deleted link being touched |
| ForwarderProofs.CloseForReadingSafe | src/forwarder.cc:259-269 | Half-closing at the end of a stream keeps the invariant and the opposite direction's notifications |
| ForwarderProofs.CloseForWritingSafe | src/forwarder.cc:271-281 | Half-closing a sink whose buffer has run empty at the end of the stream keeps the invariant and the opposite direction's notifications |
| ForwarderProofs.DropSafe | src/event_loop.h:45-60 | Giving a reference back deletes the link exactly when it was the last one, and then the destructor's CHECKs hold |
| ForwarderProofs.NewEstablishes | src/forwarder.cc:168-175 | New sets up the invariant, initial notifications included, whatever has arrived on the sockets before |
| ForwarderProofs.NewFailsClean | src/forwarder.cc:157-167 | If a pipe cannot be made, both sockets and a pipe already made are closed once |
| Forwarder.Buffer.Init | src/forwarder.cc:50-64 | A failing pipe() leaves no descriptor, a succeeding one both ends open and the buffer empty |
| Forwarder.Buffer.Write | src/forwarder.cc:72-82 | Appends the data; the CHECKs on the bounds hold |
| Forwarder.Buffer.WriteFrom | src/forwarder.cc:84-106 | Buffer, socket and status are what the model says for the kernel's choice; the CHECKs hold |
| Forwarder.Buffer.ReadTo | src/forwarder.cc:108-140 | Buffer, socket and status on the way out are what the model says for the kernel's choice, the end of file of an empty buffer included; the CHECKs hold |
| Forwarder.Buffer.Destroy | src/forwarder.cc:66-70 | Closes the ends that are open, and only those |
| Forwarder.LinkEventHandler.ForwardFromOther | src/forwarder.cc:211-257 | The loop ends in the state, and returns the result, of the model's Forward for the kernel behaviour it met |
| Forwarder.LinkEventHandler.Process | src/forwarder.cc:179-188 | The pair is what the model says, for either order of the operands |
| Forwarder.LinkEventHandler.OnEvent | src/forwarder.cc:177-195 | OnEvent changes the two objects as the model says: the temporary reference on the other link, the events, the refreshes |
| Forwarder.LinkEventHandler.OnTimeout | src/forwarder.cc:197-202 | OnTimeout changes the two objects as the model says, and the other link stays alive while it runs |
| Forwarder.LinkEventHandler.Close | src/forwarder.cc:283-293 | Closing changes the two objects as the model says, and is safe while `this` loses two references |
| Forwarder.LinkEventHandler.Terminate | src/forwarder.cc:296-299 | Both objects are closed; the second Close still finds its object alive |
| Forwarder.LinkEventHandler.CloseForReading | src/forwarder.cc:259-269 | The flags, the event mask and the registration change as the model says, by half-closing or by closing |
| Forwarder.LinkEventHandler.CloseForWriting | src/forwarder.cc:271-281 | The flags, the event mask and the registration change as the model says, by half-closing or by closing |
| Forwarder.LinkEventHandler.New | src/forwarder.cc:151-175 | The two handlers are made, and end up linked, referenced, registered and with the response under way, or, if a pipe cannot be made, deleted with their sockets closed; as the model says in either case |
| Forwarder.LinkEventHandler.Start | src/forwarder.cc:168-174 | The two objects are linked, referenced and registered, and the response is in the client's pipe |
| Forwarder.LinkEventHandler.Attach | src/forwarder.cc:168-171 | The two objects refer to each other and hold a reference each |
| EventLoopTheorems.BatchSafety | src/event_loop.cc:99-117 | Whatever clients do, no CHECK fails; a handler is deleted exactly when its registration, its clients' references and the loop's references are all gone; none is deleted while an event of the batch refers to it or its code runs |
| EventLoopTheorems.EventsInOrder | src/event_loop.cc:101-117 | In every run the loop comes to every event that epoll reports once and in order, and calls the handler or the scheduled function if and only if, for a handler, it is still registered then |
| EventLoopTheorems.NothingHeldWhileWaiting | src/event_loop.cc:101-126 | When the loop waits it has given every reference of the batch and the sweep back |
| EventLoopTheorems.QueueIsSorted | src/event_loop.cc:55-81 | The expiry queue is sorted by deadline without ever being sorted, and its members, the registered handlers and epoll's interest set are the same |
| EventLoopTheorems.OperationsDo | src/event_loop.cc:55-81 | Add, Remove, Modify, Refresh, IncRef and DecRef have their stated effect on their handler's registration, deadline, place in the queue, event mask and count, and none on any other handler or on the order of the others |
| EventLoopTheorems.OnlyClientsRegister | src/event_loop.cc:99-128 | The loop itself neither registers nor unregisters a handler nor changes an event mask |
| EventLoopTheorems.NeverEarly | src/event_loop.cc:118-126 | OnTimeout is never called before a full timeout has passed since the handler's last Add or Refresh |
| EventLoopTheorems.TimerBound | src/epoll.cc:54-61 | With handlers that take no time and waits that end on time, OnTimeout comes less than the timeout, rounded up to milliseconds, after the deadline; when the loop waits no deadline has passed |
| EventLoopTheorems.WholeMilliseconds | src/epoll.cc:59 | The wait is a whole number of milliseconds, at least the timeout and less than a millisecond more |
| EventLoopTheorems.SweepVisitsOnce | src/event_loop.cc:118-126 | If the clock moves by less than a timeout during a pass over expired handlers, the pass visits each at most once and makes no more visits than the queue had members, whatever the handlers do |
| EventLoopProofs.RunKeeps | src/event_loop.cc:43-140 | Every step of the loop and of any client keeps the invariants on references, queue, interest set and deadlines |
| EventLoopProofs.AddKeeps | src/event_loop.cc:55-64 | Add keeps them, and moves no other deadline |
| EventLoopProofs.RemoveKeeps | src/event_loop.cc:66-74 | Remove keeps them, the deletion by its own DecRef included |
| EventLoopProofs.RefreshKeeps | src/event_loop.cc:130-140 | Refresh keeps them: its CHECK on the tail holds and the queue stays sorted |
| EventLoopProofs.DropHeld | src/event_loop.h:45-48 | Giving back a reference of the loop deletes the handler if and only if nothing else refers to it |
| EventLoop.EventHandler.IncRef | src/event_loop.h:39-42 | The count goes up by one |
| EventLoop.EventHandler.DecRef | src/event_loop.h:45-60 | The count goes down by one; at 0 the object is deleted and the destructor's CHECKs hold |
| EventLoop.List.AddTail | src/list.cc:21-37 | On the linked objects, appends to the sequence they form; every CHECK holds |
| EventLoop.List.Erase | src/list.cc:39-62 | Removes a node anywhere and leaves it unlinked; every CHECK holds |
| EventLoop.EventLoop.Add | src/event_loop.cc:55-64 | Objects, list and interest set change as the model says |
| EventLoop.EventLoop.Remove | src/event_loop.cc:66-74 | Objects, list and interest set lose the handler as the model says; its last reference may go with it |
| EventLoop.EventLoop.Modify | src/event_loop.cc:76-81 | The interest set changes as the model says, and nothing else |
| EventLoop.EventLoop.Refresh | src/event_loop.cc:130-140 | For any registered handler of a consistent loop the deadline and the list change as the model says, and the CHECK on the tail holds |
| EventLoop.EventLoop.RunBatch | src/event_loop.cc:101-117 | Collecting and handling a batch is the run of the model in which every event is come to in order and, wherever the loop calls a handler or a scheduled function, its whole script is run |
| EventLoop.EventLoop.RunSweep | src/event_loop.cc:118-126 | The pass over expired handlers is the run of the model in which every visited handler's whole script is run and takes its time, and it ends |
| ThreadPoolProofs.RunKeeps | src/thread_pool.cc:40-80 | In every interleaving, have_sleeper_ holds exactly when one thread is in the timed wait, an un-notified sleeper's deadline is at most every queued time, and the CHECK at line 75 holds |
| ThreadPoolProofs.NoStrandedWork | src/thread_pool.cc:40-78 | While work is due and a thread is idle, a thread is awake, a notification is on its way to a waiting thread, or the sleeper's deadline has passed |
| ThreadPoolProofs.DueWorkStarts | src/thread_pool.cc:51-78 | From every such state at most two steps that are already under way start the work that is due first |
| ThreadPoolProofs.DueWorkStartsAnyway | src/thread_pool.cc:50-80 | From every reachable state with due work and a thread that has not left, busy or not, at most three steps, the return of that thread's job and its owed notification among them, start the work that is due first |
| ThreadPoolProofs.BusyStays | src/thread_pool.cc:66-79 | A thread that runs a job is running it after every step other than the job's own return, which makes it ask for more work; the destructor and all notifications included |
| ThreadPoolProofs.StartedJobsRun | src/thread_pool.cc:62-79 | In every run the jobs started are those that have returned and one for each busy thread |
| ThreadPoolProofs.SleepsForWork | src/thread_pool.cc:73-74 | In every run a timed wait ends at the time of some scheduled item |
| ThreadPoolProofs.JoinReturns | src/thread_pool.cc:30-38 | After the destructor's notifications no thread waits any more, a thread that gets the mutex leaves, and one that has left stays out |
| ThreadPoolProofs.ExactlyOnce | src/thread_pool.h:40-44 | Every scheduled item is queued or has been started, one of the two and once, and never before its time |
| ThreadPoolProofs.EarliestFirst | src/thread_pool.h:47-48 | What is started is due, and is earlier than all that stays in the queue, or as early and scheduled before |
| ThreadPoolProofs.PushSorted | src/thread_pool.h:47-52 | The queue holds the same items as before and the new one, in order |
| ThreadPool.ThreadPool.Schedule | src/thread_pool.cc:40-48 | The locked section pushes the work, and owes a notification exactly when the new work is first, to the sleeper if there is one |
| ThreadPool.ThreadPool.Next | src/thread_pool.cc:51-78 | One stay in the locked section, from each of its entries to each of its exits |
| ThreadPool.ThreadPool.NotifyAll | src/thread_pool.cc:35 | Wakes every thread that waits on cv_, and no other |
| DnsTheorems.ExactlyOnePlace | src/dns.cc:83-143 | In every interleaving each issued callback is in exactly one place: with its caller, waiting in one entry, held by one delivering task, or invoked once |
| DnsTheorems.NeverLost | src/dns.h:63-69 | From wherever a run has led, every issued callback is at most as many steps as there are calls, and seven, from being invoked: steps of its own call, of its entry's own task, of the clock, and of a call that is about to schedule an entry |
| DnsTheorems.WaitOnlyForTheFirstRun | src/dns.cc:96-99 | Callbacks wait in an entry exactly until its first run hands them over |
| DnsTheorems.OneOwner | src/dns.cc:107-143 | No task uses the iterator of an erased entry; every entry has one owner, and a key never two tasks, so no two lookups of it run at once |
| DnsTheorems.RefreshIsBounded | src/dns.h:52-55 | The lookups since an entry's last use number at most ceil(duration / period), and at most one run since then did nothing |
| DnsTheorems.EveryRunCounts | src/dns.cc:107-142 | A run of an entry with nobody waiting erases it when the refresh duration is over, and otherwise adds one to its lookups and idle runs |
| DnsTheorems.RefreshIsTimely | src/dns.cc:139-142 | The next run comes at most a refresh period after the last lookup |
| DnsLifetime.KeptExactly | src/dns.h:52-55 | From any reachable state, an entry that has served its first callbacks stays for the refresh duration after a time, in all continuations, if and only if its last use is not before that time or the duration is over |
| DnsLifetime.KeptForTheWaiting | src/dns.cc:118-134 | For a callback that waits for the lookup, the entry is sure to stay for the duration after its Resolve if and only if that Resolve read the clock no later than the lookup ended, or the duration is over |
| DnsLifetime.ErasedEarly | src/dns.cc:111-134 | A run with a duration of 5 in which a Resolve at 13 does not keep the entry from being erased at 15 |
| DnsLifetime.KeptWhileUsed | src/dns.cc:111-114 | Every delivery's entry is in the cache, or a refresh duration has passed since the time of that use: the time that Resolve read if it answered itself, the end of the lookup if a task did after one |
| DnsLifetime.ErasedInTime | src/dns.cc:111-142 | An entry that is not used is out of the cache by the time ceil(duration / period) + 2 of its runs have begun, whatever else happens |
| DnsTheorems.FirstRunIsDue | src/dns.cc:83-92 | The first run of an entry, for which callbacks wait, is never scheduled for later than now |
| DnsFreshness.KeepsLatest | src/dns.cc:118-129 | In every run an entry holds the ring of the latest successful lookup that its task has stored, and that lookup's time, whatever has failed since |
| DnsFreshness.GivenUntilTtl | src/dns.h:44-48 | A Resolve that answers itself gives an address if and only if that lookup is younger than the TTL, and then one of that lookup's |
| DnsFreshness.KeepsLooking | src/dns.h:49-51 | In every run, a run of an entry's task erases the entry, or looks it up, or comes less than a refresh period after its latest lookup |
| DnsFreshness.WaitInOrder | src/dns.cc:86-99 | Callbacks wait for the first lookup in the order in which their calls got the mutex |
| DnsTheorems.FirstAnswerLooksUp | src/dns.cc:115-117 | Every callback that a task answers is answered after a lookup of that run, in all runs, if and only if the clock starts at a refresh period or more |
| DnsTheorems.NullWithoutLookup | src/dns.cc:115-136 | If the clock starts earlier, there is a run in which a task gives a callback null without a lookup |
| DnsAnswers.RightAndFresh | src/dns.cc:100-104 | An address given to a callback was found by a lookup of that callback's own key; Resolve gives it if and only if it is younger than the TTL at the time it has read; a task gives what its own run's lookup has found |
| DnsAnswers.FirstBatch | src/dns.cc:119-136 | The callbacks collapsed into the first lookup are all handed over, in order, starting at the head of what it found, or get null if it failed |
| DnsAnswers.RoundRobin | src/dns.cc:131-149 | Every use of an entry has a slot of its own, whoever serves it, and the address whose turn that slot is |
| DnsAnswers.Balanced | src/dns.cc:131-149 | In every reachable state, for any window of consecutive uses of an entry since its last successful refresh that have all been given an address: the deliveries that gave any two addresses of the ring differ in number by at most one |
| DnsAnswers.StoreAdvances | src/dns.cc:122-128 | The shortcut on refresh leaves the cursor where that many advances from the head lead, and the use count 0 |
| DnsProofs.RunKeeps | src/dns.cc:83-149 | Every step keeps the invariants on index, owners, places of callbacks and contents of entries |
| DnsProofs.UseAllKeeps | src/dns.cc:131-136 | A batch reserves consecutive slots and moves the cursor once for each |
| DnsResolver.CloseRing | src/dns.cc:68-75 | The loop over the address list turns it into a ring of the same nodes |
| DnsResolver.Advanced | src/dns.cc:35-37 | A pointer into a ring moves as the cursor does; null stays null |
| DnsResolver.SamePointer | src/dns.cc:127 | Two pointers into a ring are equal exactly when their cursors are |
| DnsResolver.CacheData.Use | src/dns.cc:145-149 | The entry shows what the model's Use says |
| DnsResolver.CacheData.Rotate | src/dns.cc:124-128 | The loop ends with the cursor at use count modulo ring size and use count 0, within 2n - 1 iterations |
| DnsResolver.CacheData.Store | src/dns.cc:120-129 | A lookup's outcome is stored as the model says, the rotation done by the loop |
| DnsResolver.CacheData.HandOver | src/dns.cc:132-134 | Takes all waiting callbacks and uses the entry once for each |
| DnsResolver.DnsResolver.Enter | src/dns.cc:85-104 | The locked section of Resolve, in its three branches, is the model's step, and keeps the cache consistent with it |
| DnsResolver.DnsResolver.Check | src/dns.cc:110-116 | The first locked section of a run: erase, go and look up, or go on |
| DnsResolver.DnsResolver.StoreResult | src/dns.cc:119-141 | The locked section after a lookup stores its outcome and hands the waiting callbacks over, or sets the next run, as the model says |
| DnsResolver.DnsResolver.DeliverOne | src/dns.cc:136 | A callback of a batch gets the address the model says |
| DnsResolver.DnsResolver.Finish | src/dns.cc:137-142 | The time of the next run is the model's |
| ParserProofs.ChunkIndependence | src/parser.cc:75-113 | All ways of cutting a stream into reads and pauses give the same result if and only if what can be seen of it does not begin with the prefix, has no terminator, ends with one, or names no host |
| ParserProofs.ResultIsVerdict | src/parser.cc:94-110 | Then the result is the host and port if all that can be seen is a request, and empty otherwise |
| ParserProofs.OnlyRequestsAreAccepted | src/parser.cc:41-42 | A result that is not empty means that what has been read, a prefix of what was sent, is a request of the documented language, and the result is its longest run free of spaces and carriage returns |
| ParserProofs.SafeIfRoom | src/parser.cc:75-97 | The CHECK on free space and the bounds of the slice hold in all sessions if and only if the maximum size is not 0 |
| ParserProofs.SessionEnds | src/parser.cc:48-113 | As long as the handler is registered no event or read has been an error, a timeout or the end of the stream, everything that the kernel offered in all readable events has been read, and it leaves room, agrees with the prefix and does not end with the terminator |
| ParserProofs.TimeoutEnds | src/parser.cc:49-62 | A timeout or an error event ends the session with an empty result, unless it has ended before, and nothing changes it afterwards |
| ParserProofs.CalledOnce | src/parser.cc:65-68 | The callback is called at most once, and exactly when the handler leaves the event loop |
| ParserProofs.HostPortMatches | src/parser.cc:95-96 | What is cut out of an accepted request is its host and port in the documented language |
| ParserProofs.SameHostPort | src/parser.cc:94-102 | Cut at any of its terminators, a stream yields the same host and port |
| ParserProofs.ReadKeeps | src/parser.cc:75-113 | Read, for any sequence of results of read(), goes on, or ends with a result that fits what has been read |
| Parser.ParseEventHandler.Read | src/parser.cc:75-113 | The loop over the buffer returns, and leaves, what the model's Read does |
| Parser.ParseEventHandler.KernelRead | src/parser.cc:78 | The bytes go behind those already there and nothing before them changes |
| Parser.ParseEventHandler.OnEvent | src/parser.cc:48-57 | The handler's state changes as the model's step says |
| Parser.ParseEventHandler.OnTimeout | src/parser.cc:59-62 | A timeout ends the session with an empty result, as the model's step says |

## Left out

- The acceptor, the connector, `Addr`, `Sock`, logging and its text, signal and resource limits, and the callback chain in `src/hcproxy.cc`: simple clients that would add only easy members.
- System calls: their results are choices of the kernel, limited as listed above; that the kernel behaves so is assumed.
- EPOLLHUP: neither the forwarder nor the parser looks at it.
- `EventLoop::Schedule` and its pipe of pointers: a scheduled function is an event of the batch without a handler.
- Threads that call an operation of the event loop from outside its thread: a CHECK in the source, which depends on the caller.
- Integer overflow of reference counts, use counts and work indices.
- `std::priority_queue`, `std::map` and `std::shared_ptr`: a sorted sequence, a map, and a position on a ring. Once a ring is closed nothing changes it, so in `CacheData` a pointer into it is its position; when a ring is freed is not modelled.
- `ResolveSync`'s splitting of host and port, and what getaddrinfo finds: a lookup returns any list of addresses, an empty one if it fails.
- The number of the DNS resolver's threads: its tasks run in any interleaving.
- Locks and condition variables weaker than sequential steps, and fairness: progress is stated as steps that are already under way, or as a continuation that exists.
- ForwarderProofs.NeverHangs: assumes that both remote ends finish their streams; what bounds a connection otherwise is the timeout, which is modelled with the event loop.
- DnsTheorems.NeverLost: says that these steps lead there, not that the scheduler takes them.
- ForwarderInLoop.DeliverFollows: the client calls that follow the pair are shown to exist; that they are the ones the methods make is what the classes of `Forwarder` show, for their own event loop's bookkeeping.
- EventLoop.EventLoop.RunBatch: handlers made by a client during the batch are made by `Create` before it; the model allows them at any time.
- EventLoop.EventLoop.RunSweep: the time that a handler takes passes at its end; the model lets time pass at any point.
- EventLoopTheorems.TimerBound: is about handlers that take no time; EventLoopTheorems.NeverEarly needs no such assumption.
- Forwarder.LinkEventHandler.ForwardFromOther: the two halves of the loop's body are methods of their own, and the loop's data of a link (registration, mask, deadline, batch entry) is kept beside it.
