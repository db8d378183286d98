/** The thread pool as a state machine.  A step is one lock-held section, one end of a wait, one
    delayed notification, or one step of a client; any interleaving of steps is a run.

    Every function is total: a step that is not possible changes nothing.  `failed` records a CHECK
    that fired. */
module ThreadPoolModel {

  // ---------------------------------------------------------------------------------------------
  // The queue

  datatype Work = Work(t: int, idx: nat)

  /** The order in which work is dispatched: Work::operator< with its operands exchanged. */
  predicate Before(a: Work, b: Work) { a.t < b.t || (a.t == b.t && a.idx < b.idx) }

  predicate Sorted(q: seq<Work>) {
    forall i, j :: 0 <= i < j < |q| ==> Before(q[i], q[j])
  }

  /** work_.push(): the queue is kept as the sequence in which it will be popped. */
  function Push(q: seq<Work>, w: Work): seq<Work> {
    if q == [] || Before(w, q[0]) then [w] + q else [q[0]] + Push(q[1..], w)
  }

  // ---------------------------------------------------------------------------------------------
  // The pool

  /** Where a thread is. */
  datatype Pc =
    | Awake                  // in Next, wants the mutex
    | InCv                   // waits on cv_
    | InSleeper(deadline: int)  // waits on sleeper_cv_ until the deadline it read when it went to sleep
    | SleeperUp              // its wait on sleeper_cv_ has ended; wants the mutex
    | Notifying              // has taken work and unlocked; is about to notify cv_
    | Running                // runs the work it has taken
    | Gone                   // has left Loop

  /** How far the destructor is. */
  datatype Dtor = NotCalled | ExitSet | AllNotified | Joining

  datatype Start = Start(w: Work, at: int)

  datatype Pool = Pool(
    now: int,
    work: seq<Work>, lastIdx: nat, haveSleeper: bool, exit_: bool,
    threads: seq<Pc>,
    cvNotes: nat, sleeperNotes: nat,  // notify_one calls that Schedule has decided on and not yet made
    dtor: Dtor,
    scheduled: seq<Work>, started: seq<Start>,  // history
    failed: bool)

  function NewPool(numThreads: nat, now: int): Pool {
    Pool(now, [], 0, false, false, seq(numThreads, _ => Awake), 0, 0, NotCalled, [], [], false)
  }

  predicate Is(p: Pool, i: nat, pc: Pc) { i < |p.threads| && p.threads[i] == pc }

  function Set(p: Pool, i: nat, pc: Pc): Pool {
    if i < |p.threads| then p.(threads := p.threads[i := pc]) else p
  }

  /** The index of some thread that waits on cv_: `pick` if it does, otherwise the first from `from`. */
  function Waiter(p: Pool, pick: nat, from: nat): nat
    decreases |p.threads| - from
  {
    if Is(p, pick, InCv) then pick
    else if from >= |p.threads| || p.threads[from] == InCv then from
    else Waiter(p, pick, from + 1)
  }

  /** cv_.notify_one(): wakes some waiting thread, if there is one. */
  function NotifyCv(p: Pool, pick: nat): Pool { Set(p, Waiter(p, pick, 0), Awake) }

  function Sleeper(p: Pool, from: nat): nat
    decreases |p.threads| - from
  {
    if from >= |p.threads| || p.threads[from].InSleeper? then from else Sleeper(p, from + 1)
  }

  /** sleeper_cv_.notify_one() */
  function NotifySleeper(p: Pool): Pool { Set(p, Sleeper(p, 0), SleeperUp) }

  function NotifyAll(p: Pool): Pool {
    p.(threads := seq(|p.threads|, i requires 0 <= i < |p.threads| =>
                                     if p.threads[i] == InCv then Awake else p.threads[i]))
  }

  /** The lock-held part of Schedule (src/thread_pool.cc:40-46). */
  function ScheduleSection(p: Pool, t: int): Pool {
    var w := Work(t, p.lastIdx + 1);
    var q := p.(work := Push(p.work, w), lastIdx := p.lastIdx + 1, scheduled := p.scheduled + [w]);
    if q.work == [] || q.work[0].idx != q.lastIdx then q
    else if q.haveSleeper then q.(sleeperNotes := q.sleeperNotes + 1)
    else q.(cvNotes := q.cvNotes + 1)
  }

  /** Thread i's pass through the loop of Next, from holding the mutex to giving it up
      (src/thread_pool.cc:53-74). */
  function NextSection(p: Pool, i: nat): Pool {
    if p.exit_ then Set(p, i, Gone)
    else if p.work == [] then Set(p, i, InCv)
    else if p.work[0].t <= p.now then
      var q := p.(work := p.work[1..], started := p.started + [Start(p.work[0], p.now)]);
      Set(q, i, if q.work != [] && !q.haveSleeper then Notifying else Running)
    else if p.haveSleeper then Set(p, i, InCv)
    else Set(p.(haveSleeper := true), i, InSleeper(p.work[0].t))
  }

  /** A thread whose timed wait has ended gets the mutex (src/thread_pool.cc:75-76). */
  function Resume(p: Pool): Pool { p.(haveSleeper := false, failed := p.failed || !p.haveSleeper) }

  datatype Label =
    | Tick(dt: nat)
    | Schedule(t: int)
    | FireCv(pick: nat)          // a delayed cv_.notify_one() of Schedule
    | FireSleeper                // a delayed sleeper_cv_.notify_one() of Schedule
    | Lock(i: nat)               // thread i gets the mutex
    | FirePop(i: nat, pick: nat) // thread i makes the cv_.notify_one() it owes
    | Finish(i: nat)             // thread i's work returns
    | TimeOut(i: nat)            // thread i's timed wait reaches its deadline
    | Spurious(i: nat)           // thread i's wait ends for no reason
    | Destroy | DestroyAll | DestroySleeper  // the three steps of ~ThreadPool

  function Step(p: Pool, l: Label): Pool {
    match l
    case Tick(dt) => p.(now := p.now + dt)
    case Schedule(t) => ScheduleSection(p, t)
    case FireCv(pick) => if p.cvNotes == 0 then p else NotifyCv(p.(cvNotes := p.cvNotes - 1), pick)
    case FireSleeper => if p.sleeperNotes == 0 then p else NotifySleeper(p.(sleeperNotes := p.sleeperNotes - 1))
    case Lock(i) =>
      if Is(p, i, Awake) then NextSection(p, i)
      else if Is(p, i, SleeperUp) then NextSection(Resume(p), i)
      else p
    case FirePop(i, pick) => if Is(p, i, Notifying) then NotifyCv(Set(p, i, Running), pick) else p
    case Finish(i) => if Is(p, i, Running) then Set(p, i, Awake) else p
    case TimeOut(i) =>
      if i < |p.threads| && p.threads[i].InSleeper? && p.threads[i].deadline <= p.now
      then Set(p, i, SleeperUp) else p
    case Spurious(i) =>
      if Is(p, i, InCv) then Set(p, i, Awake)
      else if i < |p.threads| && p.threads[i].InSleeper? then Set(p, i, SleeperUp)
      else p
    case Destroy => if p.dtor.NotCalled? then p.(exit_ := true, dtor := ExitSet) else p
    case DestroyAll => if p.dtor.ExitSet? then NotifyAll(p).(dtor := AllNotified) else p
    case DestroySleeper => if p.dtor.AllNotified? then NotifySleeper(p).(dtor := Joining) else p
  }

  function Run(p: Pool, ls: seq<Label>): Pool {
    if ls == [] then p else Step(Run(p, ls[..|ls| - 1]), ls[|ls| - 1])
  }
}
