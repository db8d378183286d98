/** The thread pool's object.  A method is a stretch of code between two points at which other threads
    can run; each does what the corresponding step of ThreadPoolModel says. */
module ThreadPool {
  import M = ThreadPoolModel
  import P = ThreadPoolProofs

  class ThreadPool {
    var work: seq<M.Work>  // a priority_queue, as the sequence in which it is popped
    var lastIdx: nat
    var haveSleeper: bool
    var exit_: bool
    // The clock, the threads, and the notifications they owe
    var now: int
    var threads: seq<M.Pc>
    var cvNotes: nat
    var sleeperNotes: nat
    var dtor: M.Dtor
    ghost var scheduled: seq<M.Work>
    ghost var started: seq<M.Start>

    ghost function View(): M.Pool
      reads this
    {
      M.Pool(now, work, lastIdx, haveSleeper, exit_, threads, cvNotes, sleeperNotes, dtor, scheduled, started, false)
    }

    constructor (numThreads: nat, now: int)
      ensures View() == M.NewPool(numThreads, now) && P.Inv(View())
    {
      this.now, work, lastIdx, haveSleeper, exit_ := now, [], 0, false, false;
      threads := seq(numThreads, _ => M.Awake);
      cvNotes, sleeperNotes, dtor, scheduled, started := 0, 0, M.NotCalled, [], [];
      new;
      P.RunKeeps(numThreads, now, []);
    }

    /** Schedule up to its notify_one(), which becomes one of the notifications owed. */
    method Schedule(t: int)
      modifies this`work, this`lastIdx, this`cvNotes, this`sleeperNotes, this`scheduled
      ensures View() == M.Step(old(View()), M.Schedule(t))
    {
      lastIdx := lastIdx + 1;
      work := M.Push(work, M.Work(t, lastIdx));
      scheduled := scheduled + [M.Work(t, lastIdx)];
      if work[0].idx == lastIdx {
        if haveSleeper {
          sleeperNotes := sleeperNotes + 1;
        } else {
          cvNotes := cvNotes + 1;
        }
      }
    }

    /** Next, from the moment thread i gets the mutex to the moment it gives it up. */
    method Next(i: nat)
      requires P.Inv(View()) && i < |threads| && (threads[i] == M.Awake || threads[i] == M.SleeperUp)
      modifies this`work, this`haveSleeper, this`threads, this`started
      ensures View() == M.Step(old(View()), M.Lock(i)) && P.Inv(View())
    {
      hide P.Inv, P.HoldsMutex;
      P.StepKeeps(View(), M.Lock(i));
      P.LockKeeps(View(), i);
      if threads[i] == M.SleeperUp {
        assert haveSleeper;  // CHECK
        haveSleeper := false;
      }
      if exit_ {
        threads := threads[i := M.Gone];
        return;
      }
      if work == [] {
        threads := threads[i := M.InCv];
        return;
      }
      var top := work[0];
      if top.t <= now {
        work := work[1..];
        started := started + [M.Start(top, now)];
        var notify := work != [] && !haveSleeper;
        threads := threads[i := if notify then M.Notifying else M.Running];
        return;
      }
      if haveSleeper {
        threads := threads[i := M.InCv];
        return;
      }
      haveSleeper := true;
      threads := threads[i := M.InSleeper(top.t)];
    }

    /** cv_.notify_all() */
    method NotifyAll()
      requires dtor.ExitSet?
      modifies this`threads, this`dtor
      ensures View() == M.Step(old(View()), M.DestroyAll)
    {
      for i := 0 to |threads|
        invariant |threads| == |old(threads)|
        invariant forall j :: 0 <= j < |threads| ==>
                    threads[j] == if j < i && old(threads)[j] == M.InCv then M.Awake else old(threads)[j]
      {
        if threads[i] == M.InCv { threads := threads[i := M.Awake]; }
      }
      dtor := M.AllNotified;
    }
  }
}
