/** What every run of the thread pool guarantees. */
module ThreadPoolProofs {
  import opened ThreadPoolModel

  // ---------------------------------------------------------------------------------------------
  // The invariant

  predicate IsSleeper(pc: Pc) { pc.InSleeper? || pc.SleeperUp? }

  /** have_sleeper_ says whether a thread is in the timed wait or on its way out of it, and there is
      at most one such thread. */
  predicate SleeperInv(p: Pool) {
    && (forall i, j | 0 <= i < |p.threads| && 0 <= j < |p.threads| ::
          IsSleeper(p.threads[i]) && IsSleeper(p.threads[j]) ==> i == j)
    && (p.haveSleeper <==> exists i :: 0 <= i < |p.threads| && IsSleeper(p.threads[i]))
  }

  /** A sleeper nobody is about to wake sleeps no longer than any queued work can wait. */
  predicate DeadlineInv(p: Pool) {
    forall i, k :: 0 <= i < |p.threads| && 0 <= k < |p.work| && p.threads[i].InSleeper? && p.sleeperNotes == 0
                   ==> p.threads[i].deadline <= p.work[k].t
  }

  predicate SomeThread(p: Pool, pc: Pc) { exists i :: 0 <= i < |p.threads| && p.threads[i] == pc }

  /** Without a sleeper, queued work has somebody's attention, or every thread that could attend to it
      is busy. */
  predicate AttentionInv(p: Pool) {
    !p.exit_ && p.work != [] && !p.haveSleeper ==>
      p.cvNotes > 0 || SomeThread(p, Awake) || SomeThread(p, Notifying) || !SomeThread(p, InCv)
  }

  predicate ExitInv(p: Pool) {
    && p.exit_ == !p.dtor.NotCalled?
    && (SomeThread(p, Gone) ==> p.exit_)
    && (p.dtor.AllNotified? || p.dtor.Joining? ==> !SomeThread(p, InCv))
    && (p.dtor.Joining? ==> forall i :: 0 <= i < |p.threads| ==> !p.threads[i].InSleeper?)
  }

  function Works(s: seq<Start>): seq<Work> { seq(|s|, i requires 0 <= i < |s| => s[i].w) }

  /** Nothing scheduled is lost or started twice, and nothing is started early. */
  predicate History(now: int, work: seq<Work>, scheduled: seq<Work>, started: seq<Start>) {
    && (forall k :: 0 <= k < |scheduled| ==> scheduled[k].idx == k + 1)
    && multiset(scheduled) == multiset(work) + multiset(Works(started))
    && (forall k :: 0 <= k < |started| ==> started[k].w.t <= started[k].at <= now)
  }

  predicate Queue(work: seq<Work>, lastIdx: nat) {
    Sorted(work) && forall k :: 0 <= k < |work| ==> 1 <= work[k].idx <= lastIdx
  }

  predicate RecordInv(p: Pool) {
    |p.scheduled| == p.lastIdx && History(p.now, p.work, p.scheduled, p.started) && Queue(p.work, p.lastIdx)
  }

  predicate Inv(p: Pool) {
    !p.failed && SleeperInv(p) && DeadlineInv(p) && AttentionInv(p) && ExitInv(p) && RecordInv(p)
  }

  // ---------------------------------------------------------------------------------------------
  // The queue

  lemma {:induction false} PushSorted(q: seq<Work>, w: Work)
    requires Sorted(q) && forall k :: 0 <= k < |q| ==> q[k].idx != w.idx
    ensures Sorted(Push(q, w)) && |Push(q, w)| == |q| + 1
    ensures multiset(Push(q, w)) == multiset(q) + multiset{w}
    ensures forall x :: x in Push(q, w) <==> x == w || x in q
    ensures Push(q, w)[0] == w || (q != [] && Push(q, w)[0] == q[0])
  {
    if q == [] || Before(w, q[0]) {
      assert [w] + q == Push(q, w);
      forall x ensures x in Push(q, w) <==> x == w || x in q { }
    } else {
      PushSorted(q[1..], w);
      assert q == [q[0]] + q[1..];
      var r := Push(q[1..], w);
      forall j | 0 <= j < |r| ensures Before(q[0], r[j]) { assert r[j] in r; }
    }
  }

  lemma {:induction false} WaiterCorrect(p: Pool, pick: nat, from: nat)
    requires from <= |p.threads| && forall i :: 0 <= i < from ==> p.threads[i] != InCv
    ensures var w := Waiter(p, pick, from);
            if SomeThread(p, InCv) then w < |p.threads| && p.threads[w] == InCv else w >= |p.threads|
    decreases |p.threads| - from
  {
    if !Is(p, pick, InCv) && from < |p.threads| && p.threads[from] != InCv { WaiterCorrect(p, pick, from + 1); }
  }

  lemma {:induction false} SleeperCorrect(p: Pool, from: nat)
    requires from <= |p.threads| && forall i :: 0 <= i < from ==> !p.threads[i].InSleeper?
    ensures var s := Sleeper(p, from);
            if exists i :: 0 <= i < |p.threads| && p.threads[i].InSleeper?
            then s < |p.threads| && p.threads[s].InSleeper?
            else s >= |p.threads|
    decreases |p.threads| - from
  {
    if from < |p.threads| && !p.threads[from].InSleeper? { SleeperCorrect(p, from + 1); }
  }

  // ---------------------------------------------------------------------------------------------
  // Every step

  lemma ScheduleQueue(p: Pool, t: int)
    requires Queue(p.work, p.lastIdx)
    ensures var q := ScheduleSection(p, t);
            && Queue(q.work, q.lastIdx) && q.work != []
            && multiset(q.work) == multiset(p.work) + multiset{Work(t, p.lastIdx + 1)}
            && (forall k :: 0 <= k < |q.work| ==> q.work[k] == Work(t, p.lastIdx + 1) || q.work[k] in p.work)
            && (q.work[0].idx == q.lastIdx || (p.work != [] && q.work[0] == p.work[0]))
  {
    hide Push, Before, Sorted;
    var w := Work(t, p.lastIdx + 1);
    PushSorted(p.work, w);
    var work := Push(p.work, w);
    forall k | 0 <= k < |work| ensures 1 <= work[k].idx <= p.lastIdx + 1 && (work[k] == w || work[k] in p.work) {
      assert work[k] in work;
    }
  }

  lemma ScheduleRecords(p: Pool, t: int)
    requires RecordInv(p)
    ensures RecordInv(ScheduleSection(p, t))
  {
    hide Push, Works, Queue, History;
    ScheduleQueue(p, t);
    ScheduleHistory(p, t, ScheduleSection(p, t).work);
  }

  lemma ScheduleHistory(p: Pool, t: int, work: seq<Work>)
    requires |p.scheduled| == p.lastIdx && History(p.now, p.work, p.scheduled, p.started)
    requires multiset(work) == multiset(p.work) + multiset{Work(t, p.lastIdx + 1)}
    ensures History(p.now, work, p.scheduled + [Work(t, p.lastIdx + 1)], p.started)
  {
    hide Works;
    var w := Work(t, p.lastIdx + 1);
    assert multiset(p.scheduled + [w]) == multiset(p.scheduled) + multiset{w};
  }

  lemma ScheduleKeeps(p: Pool, t: int)
    requires Inv(p)
    ensures Inv(ScheduleSection(p, t))
  {
    ScheduleRecords(p, t);
    ScheduleQueue(p, t);
    hide History, Push;
    var q := ScheduleSection(p, t);
    assert forall pc :: SomeThread(q, pc) == SomeThread(p, pc);
    if q.sleeperNotes == 0 {
      forall i, k | 0 <= i < |q.threads| && 0 <= k < |q.work| && q.threads[i].InSleeper?
        ensures q.threads[i].deadline <= q.work[k].t
      {
        assert IsSleeper(p.threads[i]);
        assert q.work[0] == p.work[0];
        assert k == 0 || Before(q.work[0], q.work[k]);
      }
    }
  }

  /** `q` is `p` with thread `i`, which is no sleeper, in another such state. */
  predicate Moved(p: Pool, q: Pool, i: nat) {
    && i < |p.threads| == |q.threads| && !IsSleeper(p.threads[i]) && !IsSleeper(q.threads[i])
    && forall j :: 0 <= j < |p.threads| && j != i ==> q.threads[j] == p.threads[j]
  }

  lemma MovedSleepers(p: Pool, q: Pool, i: nat)
    requires SleeperInv(p) && Moved(p, q, i) && q.haveSleeper == p.haveSleeper
    ensures SleeperInv(q)
  {
    if s :| 0 <= s < |p.threads| && IsSleeper(p.threads[s]) { assert IsSleeper(q.threads[s]); }
    if s :| 0 <= s < |q.threads| && IsSleeper(q.threads[s]) { assert IsSleeper(p.threads[s]); }
  }

  /** Everything but AttentionInv. */
  predicate CoreInv(p: Pool) {
    !p.failed && SleeperInv(p) && DeadlineInv(p) && ExitInv(p) && RecordInv(p)
  }

  /** After a notification on cv_ nobody waits there unnoticed. */
  lemma NotifyCvKeeps(p: Pool, pick: nat)
    requires CoreInv(p)
    ensures Inv(NotifyCv(p, pick))
  {
    hide History, Queue, SleeperInv;
    WaiterCorrect(p, pick, 0);
    var w := Waiter(p, pick, 0);
    var q := NotifyCv(p, pick);
    if SomeThread(p, InCv) {
      assert q.threads[w] == Awake;
      MovedSleepers(p, q, w);
      MovedOthers(p, q, w);
    } else {
      assert q == p;
    }
  }

  lemma MovedOthers(p: Pool, q: Pool, i: nat)
    requires Moved(p, q, i)
    ensures forall pc :: pc != p.threads[i] && SomeThread(p, pc) ==> SomeThread(q, pc)
    ensures forall pc :: pc != q.threads[i] && SomeThread(q, pc) ==> SomeThread(p, pc)
  {
    forall pc | pc != p.threads[i] && SomeThread(p, pc) ensures SomeThread(q, pc) {
      var j :| 0 <= j < |p.threads| && p.threads[j] == pc;
      assert q.threads[j] == pc;
    }
    forall pc | pc != q.threads[i] && SomeThread(q, pc) ensures SomeThread(p, pc) {
      var j :| 0 <= j < |q.threads| && q.threads[j] == pc;
      assert p.threads[j] == pc;
    }
  }

  /** A move that changes nothing but thread i, which stays no sleeper and does not start to wait. */
  lemma MoveKeeps(p: Pool, i: nat, pc: Pc)
    requires CoreInv(p) && i < |p.threads| && !IsSleeper(p.threads[i]) && !IsSleeper(pc) && pc != InCv && pc != Gone
    ensures CoreInv(Set(p, i, pc))
  {
    hide History, Queue, SleeperInv;
    var q := Set(p, i, pc);
    MovedSleepers(p, q, i);
    MovedOthers(p, q, i);
  }

  /** Waking the sleeper: whoever does it, and whether or not Schedule still owes it a notification. */
  lemma WakeSleeperKeeps(p: Pool, i: nat, notes: nat)
    requires Inv(p) && i < |p.threads| && p.threads[i].InSleeper?
    ensures Inv(Set(p, i, SleeperUp).(sleeperNotes := notes))
  {
    hide History, Queue;
    var q := Set(p, i, SleeperUp).(sleeperNotes := notes);
    assert IsSleeper(p.threads[i]) && IsSleeper(q.threads[i]);
    assert forall j :: 0 <= j < |q.threads| && j != i ==> q.threads[j] == p.threads[j];
    assert forall j :: 0 <= j < |q.threads| && IsSleeper(q.threads[j]) ==> IsSleeper(p.threads[j]);
    assert forall pc :: !IsSleeper(pc) && SomeThread(q, pc) ==> SomeThread(p, pc);
    forall pc | !IsSleeper(pc) && SomeThread(p, pc) ensures SomeThread(q, pc) {
      var j :| 0 <= j < |p.threads| && p.threads[j] == pc;
      assert q.threads[j] == pc;
    }
  }

  lemma NotifySleeperKeeps(p: Pool, notes: nat)
    requires Inv(p)
    ensures var q := NotifySleeper(p.(sleeperNotes := notes));
            && Inv(q) && q.dtor == p.dtor
            && forall i :: 0 <= i < |q.threads| ==> !q.threads[i].InSleeper?
  {
    hide History, Queue, AttentionInv, ExitInv;
    var p1 := p.(sleeperNotes := notes);
    SleeperCorrect(p1, 0);
    var s := Sleeper(p1, 0);
    if s < |p.threads| {
      assert IsSleeper(p.threads[s]);
      WakeSleeperKeeps(p, s, notes);
    } else {
      NoSleeperNotes(p, notes);
    }
  }

  lemma NoSleeperNotes(p: Pool, notes: nat)
    requires Inv(p) && forall i :: 0 <= i < |p.threads| ==> !p.threads[i].InSleeper?
    ensures Inv(p.(sleeperNotes := notes))
  {
    hide History, Queue;
    var q := p.(sleeperNotes := notes);
    assert forall pc :: SomeThread(q, pc) == SomeThread(p, pc);
  }

  /** Thread i holds the mutex in Next and is not counted as a sleeper. */
  predicate HoldsMutex(p: Pool, i: nat) {
    && i < |p.threads| && (p.threads[i] == Awake || p.threads[i] == SleeperUp)
    && !p.failed && DeadlineInv(p) && ExitInv(p) && RecordInv(p)
    && (forall j, k | 0 <= j < |p.threads| && 0 <= k < |p.threads| ::
          IsSleeper(p.threads[j]) && IsSleeper(p.threads[k]) ==> j == k)
    && (p.haveSleeper <==> exists j :: 0 <= j < |p.threads| && j != i && IsSleeper(p.threads[j]))
  }

  /** Taking the mutex: the CHECK that have_sleeper_ is set holds, and the thread gives the role up. */
  lemma LockKeeps(p: Pool, i: nat)
    requires Inv(p)
    ensures Is(p, i, Awake) ==> HoldsMutex(p, i)
    ensures Is(p, i, SleeperUp) ==> HoldsMutex(Resume(p), i) && p.haveSleeper && !Resume(p).haveSleeper
  {
    hide History, Queue;
    if Is(p, i, Awake) {
      assert !IsSleeper(p.threads[i]);
    } else if Is(p, i, SleeperUp) {
      assert IsSleeper(p.threads[i]);
      assert forall pc :: SomeThread(Resume(p), pc) == SomeThread(p, pc);
    }
  }

  lemma PopRecords(p: Pool)
    requires RecordInv(p) && p.work != [] && p.work[0].t <= p.now
    ensures RecordInv(p.(work := p.work[1..], started := p.started + [Start(p.work[0], p.now)]))
  {
    hide Before;
    var s := p.started + [Start(p.work[0], p.now)];
    assert Works(s) == Works(p.started) + [p.work[0]];
    assert p.work == [p.work[0]] + p.work[1..];
  }

  /** Thread i leaves the lock-held section in a state in which it is no sleeper. */
  lemma LeaveKeeps(p: Pool, i: nat, pc: Pc)
    requires HoldsMutex(p, i) && !IsSleeper(pc)
    requires pc == Gone ==> p.exit_
    requires pc == InCv ==> !p.exit_
    ensures CoreInv(Set(p, i, pc))
  {
    hide History, Queue;
    var q := Set(p, i, pc);
    if s :| 0 <= s < |p.threads| && s != i && IsSleeper(p.threads[s]) { assert IsSleeper(q.threads[s]); }
    if s :| 0 <= s < |q.threads| && IsSleeper(q.threads[s]) { assert s != i && IsSleeper(p.threads[s]); }
    forall pc' | pc' != pc && SomeThread(q, pc') ensures SomeThread(p, pc') {
      var j :| 0 <= j < |q.threads| && q.threads[j] == pc';
      assert p.threads[j] == pc';
    }
  }

  lemma BecomeSleeperKeeps(p: Pool, i: nat)
    requires HoldsMutex(p, i) && !p.exit_ && p.work != [] && !p.haveSleeper
    ensures Inv(Set(p.(haveSleeper := true), i, InSleeper(p.work[0].t)))
  {
    hide History;
    var q := Set(p.(haveSleeper := true), i, InSleeper(p.work[0].t));
    assert IsSleeper(q.threads[i]);
    assert forall j :: 0 <= j < |q.threads| && j != i ==> q.threads[j] == p.threads[j] && !IsSleeper(q.threads[j]);
    forall k | 0 <= k < |q.work| ensures p.work[0].t <= q.work[k].t {
      assert k == 0 || Before(q.work[0], q.work[k]);
    }
    forall pc | !IsSleeper(pc) && SomeThread(q, pc) ensures SomeThread(p, pc) {
      var j :| 0 <= j < |q.threads| && q.threads[j] == pc;
      assert p.threads[j] == pc;
    }
  }

  lemma NextSectionKeeps(p: Pool, i: nat)
    requires HoldsMutex(p, i)
    ensures Inv(NextSection(p, i))
  {
    hide History, Queue;
    if p.exit_ {
      LeaveKeeps(p, i, Gone);
    } else if p.work == [] {
      LeaveKeeps(p, i, InCv);
    } else if p.work[0].t <= p.now {
      PopRecords(p);
      var q := p.(work := p.work[1..], started := p.started + [Start(p.work[0], p.now)]);
      PopKeepsMutex(p, i, q);
      var pc := if q.work != [] && !q.haveSleeper then Notifying else Running;
      LeaveKeeps(q, i, pc);
      assert Set(q, i, pc).threads[i] == pc;
    } else if p.haveSleeper {
      LeaveKeeps(p, i, InCv);
    } else {
      BecomeSleeperKeeps(p, i);
    }
  }

  lemma PopKeepsMutex(p: Pool, i: nat, q: Pool)
    requires HoldsMutex(p, i) && p.work != []
    requires q == p.(work := p.work[1..], started := q.started) && RecordInv(q)
    ensures HoldsMutex(q, i)
  {
    hide History, Queue;
    assert forall pc :: SomeThread(q, pc) == SomeThread(p, pc);
    assert forall k :: 0 <= k < |q.work| ==> q.work[k] == p.work[k + 1];
  }

  lemma NotifyAllKeeps(p: Pool)
    requires Inv(p) && p.dtor.ExitSet?
    ensures Inv(NotifyAll(p).(dtor := AllNotified))
  {
    hide History, Queue;
    var q := NotifyAll(p).(dtor := AllNotified);
    assert forall j :: 0 <= j < |q.threads| ==> IsSleeper(q.threads[j]) == IsSleeper(p.threads[j]);
    if s :| 0 <= s < |p.threads| && IsSleeper(p.threads[s]) { assert IsSleeper(q.threads[s]); }
    if SomeThread(q, Gone) {
      var j :| 0 <= j < |q.threads| && q.threads[j] == Gone;
      assert p.threads[j] == Gone;
    }
  }

  lemma SetDtorKeeps(p: Pool, d: Dtor)
    requires Inv(p) && ((p.dtor.NotCalled? && d.ExitSet?) || (p.dtor.AllNotified? && d.Joining?))
    requires d.Joining? ==> forall i :: 0 <= i < |p.threads| ==> !p.threads[i].InSleeper?
    ensures Inv(p.(exit_ := true, dtor := d))
  {
    hide History, Queue;
    var q := p.(exit_ := true, dtor := d);
    assert forall pc :: SomeThread(q, pc) == SomeThread(p, pc);
  }

  lemma TickKeeps(p: Pool, dt: nat)
    requires Inv(p)
    ensures Inv(p.(now := p.now + dt))
  {
    hide Queue;
    var q := p.(now := p.now + dt);
    assert forall pc :: SomeThread(q, pc) == SomeThread(p, pc);
  }

  lemma WakeCvKeeps(p: Pool, i: nat)
    requires Inv(p) && Is(p, i, InCv)
    ensures Inv(Set(p, i, Awake))
  {
    hide History, Queue;
    MoveKeeps(p, i, Awake);
    assert Set(p, i, Awake).threads[i] == Awake;
  }

  lemma FinishKeeps(p: Pool, i: nat)
    requires Inv(p) && Is(p, i, Running)
    ensures Inv(Set(p, i, Awake))
  {
    hide History, Queue;
    MoveKeeps(p, i, Awake);
    assert Set(p, i, Awake).threads[i] == Awake;
  }

  lemma CvNotesKeep(p: Pool, notes: nat)
    requires Inv(p)
    ensures CoreInv(p.(cvNotes := notes))
  {
    hide History, Queue;
    assert forall pc :: SomeThread(p.(cvNotes := notes), pc) == SomeThread(p, pc);
  }

  lemma StepKeeps(p: Pool, l: Label)
    requires Inv(p)
    ensures Inv(Step(p, l))
  {
    hide History, Queue, Sorted, SleeperInv, DeadlineInv, AttentionInv, ExitInv, NextSection, ScheduleSection, NotifyAll;
    match l
    case Tick(dt) => TickKeeps(p, dt);
    case Schedule(t) => ScheduleKeeps(p, t);
    case FireCv(pick) =>
      if p.cvNotes > 0 {
        CvNotesKeep(p, p.cvNotes - 1);
        NotifyCvKeeps(p.(cvNotes := p.cvNotes - 1), pick);
      }
    case FireSleeper => if p.sleeperNotes > 0 { NotifySleeperKeeps(p, p.sleeperNotes - 1); }
    case Lock(i) =>
      LockKeeps(p, i);
      if Is(p, i, Awake) { NextSectionKeeps(p, i); }
      else if Is(p, i, SleeperUp) { NextSectionKeeps(Resume(p), i); }
    case FirePop(i, pick) =>
      if Is(p, i, Notifying) {
        MoveKeeps(p, i, Running);
        NotifyCvKeeps(Set(p, i, Running), pick);
      }
    case Finish(i) => if Is(p, i, Running) { FinishKeeps(p, i); }
    case TimeOut(i) =>
      if i < |p.threads| && p.threads[i].InSleeper? && p.threads[i].deadline <= p.now {
        WakeSleeperKeeps(p, i, p.sleeperNotes);
      }
    case Spurious(i) =>
      if Is(p, i, InCv) { WakeCvKeeps(p, i); }
      else if i < |p.threads| && p.threads[i].InSleeper? { WakeSleeperKeeps(p, i, p.sleeperNotes); }
    case Destroy => if p.dtor.NotCalled? { SetDtorKeeps(p, ExitSet); }
    case DestroyAll => if p.dtor.ExitSet? { NotifyAllKeeps(p); }
    case DestroySleeper =>
      if p.dtor.AllNotified? {
        DestroySleeperKeeps(p);
      }
  }

  lemma DestroySleeperKeeps(p: Pool)
    requires Inv(p) && p.dtor.AllNotified?
    ensures Inv(NotifySleeper(p).(dtor := Joining))
  {
    NotifySleeperKeeps(p, p.sleeperNotes);
    assert p == p.(sleeperNotes := p.sleeperNotes);
    var q := NotifySleeper(p);
    SetDtorKeeps(q, Joining);
    assert q.exit_;
    assert NotifySleeper(p).(dtor := Joining) == q.(exit_ := true, dtor := Joining);
  }

  /** Every state of every run satisfies the invariant. */
  lemma {:induction false} RunKeeps(numThreads: nat, now: int, ls: seq<Label>)
    ensures Inv(Run(NewPool(numThreads, now), ls))
    decreases |ls|
  {
    if ls == [] {
      assert multiset(NewPool(numThreads, now).scheduled) == multiset{};
    } else {
      RunKeeps(numThreads, now, ls[..|ls| - 1]);
      StepKeeps(Run(NewPool(numThreads, now), ls[..|ls| - 1]), ls[|ls| - 1]);
    }
  }

  // ---------------------------------------------------------------------------------------------
  // What every run guarantees

  predicate Due(p: Pool) { !p.exit_ && p.work != [] && p.work[0].t <= p.now }

  /** Not occupied with work, and not about to be. */
  predicate Idle(pc: Pc) { pc.Awake? || pc.InCv? || pc.InSleeper? || pc.SleeperUp? }

  predicate SleeperDue(p: Pool) {
    exists i :: 0 <= i < |p.threads| && p.threads[i].InSleeper? && p.threads[i].deadline <= p.now
  }

  /** Some thread is awake in Next, or a notification that a waiting thread will receive is in flight,
      or the sleeper's deadline has passed. */
  predicate Attended(p: Pool) {
    || SomeThread(p, Awake) || SomeThread(p, SleeperUp)
    || (SomeThread(p, InCv) && (p.cvNotes > 0 || SomeThread(p, Notifying)))
    || (p.haveSleeper && (p.sleeperNotes > 0 || SleeperDue(p)))
  }

  lemma DueIsAttended(p: Pool, i: nat)
    requires Inv(p) && Due(p) && i < |p.threads| && Idle(p.threads[i])
    ensures Attended(p)
  {
    hide History;
    if p.haveSleeper {
      var s :| 0 <= s < |p.threads| && IsSleeper(p.threads[s]);
      assert p.threads[s] == SleeperUp || p.threads[s].deadline <= p.work[0].t || p.sleeperNotes > 0;
    } else {
      assert !IsSleeper(p.threads[i]);
    }
  }

  /** No stranded work, whatever the interleaving: while work is due and some thread is idle, the work
      is attended to. */
  lemma NoStrandedWork(numThreads: nat, now: int, ls: seq<Label>, i: nat)
    requires var p := Run(NewPool(numThreads, now), ls);
             Due(p) && i < |p.threads| && Idle(p.threads[i])
    ensures Attended(Run(NewPool(numThreads, now), ls))
  {
    RunKeeps(numThreads, now, ls);
    hide Run, Inv;
    DueIsAttended(Run(NewPool(numThreads, now), ls), i);
  }

  /** A step that is already under way: a notification being delivered, a deadline being noticed, a
      thread that is awake getting the mutex. */
  predicate UnderWay(l: Label) { l.FireCv? || l.FireSleeper? || l.FirePop? || l.TimeOut? || l.Lock? }

  /** The head of the queue has just been started. */
  predicate Starts(p: Pool, q: Pool) {
    p.work != [] && q.started == p.started + [Start(p.work[0], p.now)] && q.work == p.work[1..]
  }

  lemma LockStarts(p: Pool, i: nat)
    requires Inv(p) && Due(p) && (Is(p, i, Awake) || Is(p, i, SleeperUp))
    ensures Starts(p, Step(p, Lock(i)))
  {
  }

  /** `q` is `p` after a wake-up: the queue is as it was. */
  lemma ThenLock(p: Pool, l: Label, i: nat) returns (ls: seq<Label>)
    requires var q := Step(p, l);
             Inv(q) && Woken(p, q, i)
    ensures ls == [l, Lock(i)] && Starts(p, Run(p, ls))
  {
    ls := [l, Lock(i)];
    LockStarts(Step(p, l), i);
    assert ls[..1] == [l] && ls[..1][..0] == [];
    assert Run(p, [l]) == Step(p, l) by { assert [l][..0] == []; }
    hide Step;
    assert Run(p, ls) == Step(Run(p, ls[..1]), ls[1]);
  }

  /** Progress: from every reachable state in which work is due and some thread is idle, at most two
      steps, each of them already under way, start the work that is due first. */
  lemma DueWorkStarts(numThreads: nat, now: int, history: seq<Label>, i: nat) returns (ls: seq<Label>)
    requires var p := Run(NewPool(numThreads, now), history);
             Due(p) && i < |p.threads| && Idle(p.threads[i])
    ensures |ls| <= 2 && forall k :: 0 <= k < |ls| ==> UnderWay(ls[k])
    ensures var p := Run(NewPool(numThreads, now), history); Starts(p, Run(p, ls))
  {
    var p := Run(NewPool(numThreads, now), history);
    RunKeeps(numThreads, now, history);
    hide Run, Inv;
    DueIsAttended(p, i);
    ls := AttendedStarts(p);
  }

  lemma AttendedStarts(p: Pool) returns (ls: seq<Label>)
    requires Inv(p) && Due(p) && Attended(p)
    ensures |ls| <= 2 && forall k :: 0 <= k < |ls| ==> UnderWay(ls[k])
    ensures Starts(p, Run(p, ls))
  {
    hide Run, Inv, Step;
    if j :| 0 <= j < |p.threads| && (p.threads[j] == Awake || p.threads[j] == SleeperUp) {
      ls := JustLock(p, j);
    } else if SomeThread(p, InCv) && (p.cvNotes > 0 || SomeThread(p, Notifying)) {
      ls := WakeThenLock(p);
    } else {
      ls := WakeSleeperThenLock(p);
    }
  }

  lemma JustLock(p: Pool, i: nat) returns (ls: seq<Label>)
    requires Inv(p) && Due(p) && (Is(p, i, Awake) || Is(p, i, SleeperUp))
    ensures ls == [Lock(i)] && Starts(p, Run(p, ls))
  {
    ls := [Lock(i)];
    LockStarts(p, i);
    assert Run(p, ls) == Step(p, Lock(i)) by { assert ls[..0] == []; }
  }

  /** Thread i has been woken up for the work that is due. */
  predicate Woken(p: Pool, q: Pool, i: nat) {
    && Due(q) && (Is(q, i, Awake) || Is(q, i, SleeperUp))
    && q.work == p.work && q.now == p.now && q.started == p.started
  }

  lemma CvWakes(p: Pool, w: nat)
    requires Due(p) && Is(p, w, InCv)
    ensures p.cvNotes > 0 ==> Woken(p, Step(p, FireCv(w)), w)
    ensures forall j :: Is(p, j, Notifying) ==> Woken(p, Step(p, FirePop(j, w)), w)
  {
  }

  lemma WakeThenLock(p: Pool) returns (ls: seq<Label>)
    requires Inv(p) && Due(p) && SomeThread(p, InCv) && (p.cvNotes > 0 || SomeThread(p, Notifying))
    ensures |ls| == 2 && UnderWay(ls[0]) && UnderWay(ls[1]) && Starts(p, Run(p, ls))
  {
    hide Run, Inv, Step, Due;
    var w :| 0 <= w < |p.threads| && p.threads[w] == InCv;
    CvWakes(p, w);
    var l;
    if p.cvNotes > 0 {
      l := FireCv(w);
    } else {
      var j :| 0 <= j < |p.threads| && p.threads[j] == Notifying;
      l := FirePop(j, w);
    }
    StepKeeps(p, l);
    ls := ThenLock(p, l, w);
  }

  lemma NotifyWakesSleeper(p: Pool) returns (s: nat)
    requires SleeperInv(p) && Due(p) && p.haveSleeper && !SomeThread(p, SleeperUp) && p.sleeperNotes > 0
    ensures Woken(p, Step(p, FireSleeper), s)
  {
    var w :| 0 <= w < |p.threads| && IsSleeper(p.threads[w]);
    SleeperCorrect(p.(sleeperNotes := p.sleeperNotes - 1), 0);
    s := Sleeper(p.(sleeperNotes := p.sleeperNotes - 1), 0);
  }

  lemma TimeWakesSleeper(p: Pool, s: nat)
    requires Due(p) && s < |p.threads| && p.threads[s].InSleeper? && p.threads[s].deadline <= p.now
    ensures Woken(p, Step(p, TimeOut(s)), s)
  {
  }

  lemma SleepersKnown(p: Pool)
    requires Inv(p)
    ensures SleeperInv(p)
  {
  }

  lemma WakeSleeperThenLock(p: Pool) returns (ls: seq<Label>)
    requires Inv(p) && Due(p) && p.haveSleeper && !SomeThread(p, SleeperUp) && (p.sleeperNotes > 0 || SleeperDue(p))
    ensures |ls| == 2 && UnderWay(ls[0]) && UnderWay(ls[1]) && Starts(p, Run(p, ls))
  {
    hide Run, Inv, Step, Due, SleeperInv;
    var l, s;
    if p.sleeperNotes > 0 {
      SleepersKnown(p);
      s := NotifyWakesSleeper(p);
      l := FireSleeper;
    } else {
      s :| 0 <= s < |p.threads| && p.threads[s].InSleeper? && p.threads[s].deadline <= p.now;
      TimeWakesSleeper(p, s);
      l := TimeOut(s);
    }
    StepKeeps(p, l);
    ls := ThenLock(p, l, s);
  }

  /** The destructor's join() returns: once it has made both its notifications no thread waits any
      more, and a thread that gets the mutex leaves. */
  lemma JoinReturns(numThreads: nat, now: int, ls: seq<Label>, i: nat)
    requires var p := Run(NewPool(numThreads, now), ls); p.dtor.Joining? && i < |p.threads|
    ensures var p := Run(NewPool(numThreads, now), ls);
            && !p.threads[i].InCv? && !p.threads[i].InSleeper?
            && (Is(p, i, Awake) || Is(p, i, SleeperUp) ==> Is(Step(p, Lock(i)), i, Gone))
            && forall l :: Is(p, i, Gone) ==> Is(Step(p, l), i, Gone)
  {
    RunKeeps(numThreads, now, ls);
    hide Run, History, Queue;
    var p := Run(NewPool(numThreads, now), ls);
    forall l | Is(p, i, Gone) ensures Is(Step(p, l), i, Gone) { GoneStays(p, l, i); }
  }

  lemma GoneStays(p: Pool, l: Label, i: nat)
    requires Inv(p) && Is(p, i, Gone)
    ensures Is(Step(p, l), i, Gone)
  {
    hide Inv, ScheduleSection, NextSection, NotifyCv, NotifySleeper;
    match l
    case Schedule(t) => ScheduleSparesGone(p, t, i);
    case Lock(j) => LockSparesGone(p, j, i);
    case FireCv(pick) => CvSparesGone(p.(cvNotes := if p.cvNotes > 0 then p.cvNotes - 1 else 0), pick, i);
    case FireSleeper => SleeperSparesGone(p.(sleeperNotes := if p.sleeperNotes > 0 then p.sleeperNotes - 1 else 0), i);
    case FirePop(j, pick) => CvSparesGone(Set(p, j, if i == j then Gone else Running), pick, i);
    case DestroySleeper => SleeperSparesGone(p, i);
    case _ =>
  }

  lemma ScheduleSparesGone(p: Pool, t: int, i: nat)
    requires Is(p, i, Gone)
    ensures Is(ScheduleSection(p, t), i, Gone)
  {
    hide Push;
  }

  lemma LockSparesGone(p: Pool, j: nat, i: nat)
    requires Is(p, i, Gone)
    ensures Is(Step(p, Lock(j)), i, Gone)
  {
  }

  lemma CvSparesGone(p: Pool, pick: nat, i: nat)
    requires Is(p, i, Gone)
    ensures Is(NotifyCv(p, pick), i, Gone)
  {
    WaiterCorrect(p, pick, 0);
    hide Waiter;
  }

  lemma SleeperSparesGone(p: Pool, i: nat)
    requires Is(p, i, Gone)
    ensures Is(NotifySleeper(p), i, Gone)
  {
    SleeperCorrect(p, 0);
    hide Sleeper;
  }

  /** No work is lost, started twice, or started early: every scheduled item is in the queue or has
      been started, exactly one of the two and exactly once, at or after its time. */
  lemma ExactlyOnce(numThreads: nat, now: int, ls: seq<Label>, k: nat)
    requires k < |Run(NewPool(numThreads, now), ls).scheduled|
    ensures var p := Run(NewPool(numThreads, now), ls);
            multiset(p.work)[p.scheduled[k]] + multiset(Works(p.started))[p.scheduled[k]] == 1
    ensures var p := Run(NewPool(numThreads, now), ls);
            forall s :: s in p.started ==> s.w in p.scheduled && s.w.t <= s.at <= p.now
  {
    RunKeeps(numThreads, now, ls);
    hide Run, SleeperInv, DeadlineInv, AttentionInv, ExitInv;
    var p := Run(NewPool(numThreads, now), ls);
    Multiplicity(p.scheduled, k);
    forall s | s in p.started ensures s.w in p.scheduled {
      var j :| 0 <= j < |p.started| && p.started[j] == s;
      assert Works(p.started)[j] == s.w;
      assert s.w in multiset(Works(p.started));
      assert s.w in multiset(p.scheduled);
    }
  }

  lemma {:induction false} Multiplicity(q: seq<Work>, k: nat)
    requires k < |q| && forall i, j :: 0 <= i < j < |q| ==> q[i].idx != q[j].idx
    ensures multiset(q)[q[k]] == 1
  {
    var n := |q| - 1;
    assert q == q[..n] + [q[n]];
    if k < n {
      Multiplicity(q[..n], k);
    } else {
      assert q[n] !in q[..n];
    }
  }

  /** Work is started in the order of its times, and in the order of the calls of Schedule where these are
      equal: what a step starts precedes all that is left. */
  lemma EarliestFirst(numThreads: nat, now: int, ls: seq<Label>, l: Label)
    requires var p := Run(NewPool(numThreads, now), ls); Step(p, l).started != p.started
    ensures var p := Run(NewPool(numThreads, now), ls);
            var q := Step(p, l);
            && Starts(p, q) && p.work[0].t <= p.now
            && forall k :: 0 <= k < |q.work| ==>
                 p.work[0].t < q.work[k].t || (p.work[0].t == q.work[k].t && p.work[0].idx < q.work[k].idx)
  {
    RunKeeps(numThreads, now, ls);
    hide Run, History, SleeperInv, DeadlineInv, AttentionInv, ExitInv, Push, Waiter, Sleeper;
    var p := Run(NewPool(numThreads, now), ls);
    assert l.Lock?;
    var q := Step(p, l);
    forall k | 0 <= k < |q.work| ensures Before(p.work[0], q.work[k]) {
      assert q.work[k] == p.work[k + 1];
    }
  }

  // ---------------------------------------------------------------------------------------------
  // Threads come back for more

  /** Steps that only need time and the work's return: those under way, and the end of a job. */
  predicate InHand(l: Label) { UnderWay(l) || l.Finish? }

  /** Progress with busy threads: from every reachable state in which work is due and some thread has not
      left, at most three steps, each of them in hand, start the work that is due first.  A thread that
      runs a job comes back for the next one when the job returns. */
  lemma DueWorkStartsAnyway(numThreads: nat, now: int, history: seq<Label>, i: nat) returns (ls: seq<Label>)
    requires var p := Run(NewPool(numThreads, now), history);
             Due(p) && i < |p.threads| && p.threads[i] != Gone
    ensures |ls| <= 3 && forall k :: 0 <= k < |ls| ==> InHand(ls[k])
    ensures var p := Run(NewPool(numThreads, now), history); Starts(p, Run(p, ls))
  {
    var p := Run(NewPool(numThreads, now), history);
    if Idle(p.threads[i]) {
      ls := DueWorkStarts(numThreads, now, history, i);
    } else {
      RunKeeps(numThreads, now, history);
      hide Run, Inv, Due;
      if p.threads[i] == Running { ls := FinishThenLock(p, i); } else { ls := NotifyThenFinish(p, i); }
    }
  }

  lemma FinishThenLock(p: Pool, i: nat) returns (ls: seq<Label>)
    requires Inv(p) && Due(p) && Is(p, i, Running)
    ensures ls == [Finish(i), Lock(i)] && Starts(p, Run(p, ls))
  {
    StepKeeps(p, Finish(i));
    hide Inv;
    ls := ThenLock(p, Finish(i), i);
  }

  lemma NotifyThenFinish(p: Pool, i: nat) returns (ls: seq<Label>)
    requires Inv(p) && Due(p) && Is(p, i, Notifying)
    ensures ls == [FirePop(i, 0), Finish(i), Lock(i)] && Starts(p, Run(p, ls))
  {
    var q := Step(p, FirePop(i, 0));
    StepKeeps(p, FirePop(i, 0));
    BusyStays(p, FirePop(i, 0), i);
    hide Inv, Step, Starts;
    NotifyingKeepsQueue(p, i);
    var rest := FinishThenLock(q, i);
    ls := [FirePop(i, 0)] + rest;
    RunThen(p, FirePop(i, 0), rest);
    StartsFrom(p, q, Run(q, rest));
  }

  lemma NotifyingKeepsQueue(p: Pool, i: nat)
    requires Due(p) && Is(p, i, Notifying)
    ensures var q := Step(p, FirePop(i, 0)); Due(q) && q.work == p.work && q.now == p.now && q.started == p.started
  {
  }

  lemma StartsFrom(p: Pool, q: Pool, r: Pool)
    requires Starts(q, r) && q.work == p.work && q.now == p.now && q.started == p.started
    ensures Starts(p, r)
  {
  }

  lemma {:induction false} RunThen(p: Pool, l: Label, ls: seq<Label>)
    ensures Run(p, [l] + ls) == Run(Step(p, l), ls)
    decreases |ls|
  {
    hide Step;
    if ls == [] {
      assert [l] + ls == [l] && [l][..0] == [];
      assert Run(p, []) == p;
    } else {
      assert ([l] + ls)[..|ls|] == [l] + ls[..|ls| - 1];
      RunThen(p, l, ls[..|ls| - 1]);
    }
  }

  /** What a busy thread does next is its own step: no notification, timeout or destructor interferes. */
  lemma BusyStays(p: Pool, l: Label, i: nat)
    requires Is(p, i, Running) || Is(p, i, Notifying)
    ensures Is(p, i, Running) ==> Is(Step(p, l), i, if l == Finish(i) then Awake else Running)
    ensures Is(p, i, Notifying) ==> Is(Step(p, l), i, if l.FirePop? && l.i == i then Running else Notifying)
  {
    hide ScheduleSection, NextSection, NotifyCv, NotifySleeper;
    match l
    case Schedule(t) => ScheduleSpares(p, t, i);
    case Lock(j) => LockSpares(p, j, i);
    case FireCv(pick) => CvSpares(p.(cvNotes := if p.cvNotes > 0 then p.cvNotes - 1 else 0), pick, i);
    case FireSleeper => SleeperSpares(p.(sleeperNotes := if p.sleeperNotes > 0 then p.sleeperNotes - 1 else 0), i);
    case FirePop(j, pick) => if Is(p, j, Notifying) { CvSpares(Set(p, j, Running), pick, i); }
    case DestroySleeper => SleeperSpares(p, i);
    case _ =>
  }

  predicate Busy(p: Pool, i: nat) { Is(p, i, Running) || Is(p, i, Notifying) }

  lemma ScheduleSpares(p: Pool, t: int, i: nat)
    ensures ScheduleSection(p, t).threads == p.threads
  {
    hide Push;
  }

  lemma LockSpares(p: Pool, j: nat, i: nat)
    requires Busy(p, i)
    ensures var q := Step(p, Lock(j)); i < |q.threads| && q.threads[i] == p.threads[i]
  {
  }

  lemma CvSpares(p: Pool, pick: nat, i: nat)
    requires Busy(p, i)
    ensures var q := NotifyCv(p, pick); i < |q.threads| && q.threads[i] == p.threads[i]
  {
    WaiterCorrect(p, pick, 0);
    hide Waiter;
  }

  lemma SleeperSpares(p: Pool, i: nat)
    requires Busy(p, i)
    ensures var q := NotifySleeper(p); i < |q.threads| && q.threads[i] == p.threads[i]
  {
    SleeperCorrect(p, 0);
    hide Sleeper;
  }

  // ---------------------------------------------------------------------------------------------
  // Every job that is started is run

  function BusyThreads(p: Pool): set<nat> { set i: nat | i < |p.threads| && Busy(p, i) }

  predicate Returns(p: Pool, l: Label) { l.Finish? && Is(p, l.i, Running) }

  /** How many of the steps are the return of a job. */
  function ReturnCount(p: Pool, ls: seq<Label>): nat
    decreases |ls|
  {
    if ls == [] then 0 else
    var k := |ls| - 1;
    ReturnCount(p, ls[..k]) + if Returns(Run(p, ls[..k]), ls[k]) then 1 else 0
  }

  /** Over every run: the jobs that have been started are those that have returned and those that busy
      threads are at, one each.  So a job is dropped neither when it is popped nor while it runs. */
  lemma StartedJobsRun(numThreads: nat, now: int, ls: seq<Label>)
    ensures var p := Run(NewPool(numThreads, now), ls);
            |p.started| == ReturnCount(NewPool(numThreads, now), ls) + |BusyThreads(p)|
    decreases |ls|
  {
    var p0 := NewPool(numThreads, now);
    if ls == [] {
      assert BusyThreads(p0) == {};
    } else {
      var k := |ls| - 1;
      StartedJobsRun(numThreads, now, ls[..k]);
      hide Step, Returns, BusyThreads;
      StepRuns(Run(p0, ls[..k]), ls[k]);
    }
  }

  lemma StepRuns(p: Pool, l: Label)
    ensures var q := Step(p, l);
            |q.started| - |p.started| == |BusyThreads(q)| - |BusyThreads(p)| + if Returns(p, l) then 1 else 0
  {
    match l
    case Lock(i) => LockRuns(p, i);
    case Finish(i) => if Is(p, i, Running) { assert BusyThreads(Step(p, l)) == BusyThreads(p) - {i}; }
    case _ =>
      hide Step, BusyThreads;
      OthersRun(p, l);
  }

  lemma LockRuns(p: Pool, i: nat)
    ensures var q := Step(p, Lock(i)); |q.started| - |p.started| == |BusyThreads(q)| - |BusyThreads(p)|
  {
    LockThreads(p, i);
    hide Step;
    var q := Step(p, Lock(i));
    if Busy(q, i) && !Busy(p, i) {
      assert BusyThreads(q) == BusyThreads(p) + {i};
    } else {
      assert BusyThreads(q) == BusyThreads(p);
    }
  }

  /** A thread that gets the mutex starts a job exactly if it is busy afterwards. */
  lemma LockThreads(p: Pool, i: nat)
    ensures var q := Step(p, Lock(i));
            && |q.threads| == |p.threads| && (forall j :: 0 <= j < |p.threads| && j != i ==> q.threads[j] == p.threads[j])
            && (Busy(p, i) ==> Busy(q, i))
            && |q.started| == |p.started| + if Busy(q, i) && !Busy(p, i) then 1 else 0
  {
  }

  lemma OthersRun(p: Pool, l: Label)
    requires !l.Lock? && !l.Finish?
    ensures BusyThreads(Step(p, l)) == BusyThreads(p) && Step(p, l).started == p.started
  {
    OthersStart(p, l);
    hide Step;
    forall i: nat ensures Busy(p, i) == Busy(Step(p, l), i) {
      if Busy(p, i) { BusyStays(p, l, i); } else { IdleStays(p, l, i); }
    }
  }

  lemma OthersStart(p: Pool, l: Label)
    requires !l.Lock? && !l.Finish?
    ensures |Step(p, l).threads| == |p.threads| && Step(p, l).started == p.started
  {
    hide Push, Waiter, Sleeper, NextSection, Resume;
  }

  lemma IdleStays(p: Pool, l: Label, i: nat)
    requires !l.Lock? && !Busy(p, i)
    ensures !Busy(Step(p, l), i)
  {
    hide Push, Waiter, Sleeper;
  }

  /** Over every run: a thread in the timed wait sleeps until some scheduled item is due, so it neither
      spins nor sleeps for no reason. */
  lemma {:induction false} SleepsForWork(numThreads: nat, now: int, ls: seq<Label>, i: nat)
    requires var p := Run(NewPool(numThreads, now), ls); i < |p.threads| && p.threads[i].InSleeper?
    ensures var p := Run(NewPool(numThreads, now), ls);
            exists k :: 0 <= k < |p.scheduled| && p.scheduled[k].t == p.threads[i].deadline
    decreases |ls|
  {
    if ls != [] {
      var k := |ls| - 1;
      var p, q := Run(NewPool(numThreads, now), ls[..k]), Run(NewPool(numThreads, now), ls);
      StepSleeper(p, ls[k], i);
      hide Step;
      if i < |p.threads| && p.threads[i] == q.threads[i] {
        SleepsForWork(numThreads, now, ls[..k], i);
        var j :| 0 <= j < |p.scheduled| && p.scheduled[j].t == p.threads[i].deadline;
        assert q.scheduled[j] == p.scheduled[j];
      } else {
        RunKeeps(numThreads, now, ls[..k]);
        HeadIsScheduled(p);
      }
    }
  }

  /** Thread i goes to sleep in this step. */
  predicate FallsAsleep(p: Pool, q: Pool, i: nat) {
    i < |q.threads| && q.threads[i].InSleeper? && !(i < |p.threads| && p.threads[i] == q.threads[i])
  }

  lemma StepSleeper(p: Pool, l: Label, i: nat)
    ensures var q := Step(p, l);
            && p.scheduled <= q.scheduled
            && (FallsAsleep(p, q, i) ==>
                  l == Lock(i) && p.work != [] && q.threads[i].deadline == p.work[0].t > p.now && q.scheduled == p.scheduled)
  {
    if l.Lock? {
      LockSleeper(p, l.i, i);
    } else {
      OthersSleeper(p, l, i);
    }
  }

  lemma LockSleeper(p: Pool, j: nat, i: nat)
    ensures var q := Step(p, Lock(j));
            && q.scheduled == p.scheduled
            && (FallsAsleep(p, q, i) ==> j == i && p.work != [] && q.threads[i].deadline == p.work[0].t > p.now)
  {
  }

  lemma OthersSleeper(p: Pool, l: Label, i: nat)
    requires !l.Lock?
    ensures p.scheduled <= Step(p, l).scheduled && !FallsAsleep(p, Step(p, l), i)
  {
    hide ScheduleSection, NotifyCv, NotifySleeper, NextSection, Resume;
    forall q: Pool, pick: nat ensures NotifyCv(q, pick).scheduled == q.scheduled && (FallsAsleep(p, NotifyCv(q, pick), i) ==> FallsAsleep(p, q, i)) {
      CvWakesNoSleeper(p, q, pick, i);
    }
    forall q: Pool ensures NotifySleeper(q).scheduled == q.scheduled && (FallsAsleep(p, NotifySleeper(q), i) ==> FallsAsleep(p, q, i)) {
      SleeperWakesNoSleeper(p, q, i);
    }
    if l.Schedule? { ScheduleSpares(p, l.t, i); ScheduleGrows(p, l.t); }
  }

  lemma ScheduleGrows(p: Pool, t: int)
    ensures p.scheduled <= ScheduleSection(p, t).scheduled
  {
    hide Push;
  }

  lemma CvWakesNoSleeper(p: Pool, q: Pool, pick: nat, i: nat)
    ensures NotifyCv(q, pick).scheduled == q.scheduled && (FallsAsleep(p, NotifyCv(q, pick), i) ==> FallsAsleep(p, q, i))
  {
    hide Waiter;
  }

  lemma SleeperWakesNoSleeper(p: Pool, q: Pool, i: nat)
    ensures NotifySleeper(q).scheduled == q.scheduled && (FallsAsleep(p, NotifySleeper(q), i) ==> FallsAsleep(p, q, i))
  {
    hide Sleeper;
  }

  lemma HeadIsScheduled(p: Pool)
    requires Inv(p) && p.work != []
    ensures exists k :: 0 <= k < |p.scheduled| && p.scheduled[k].t == p.work[0].t
  {
    hide SleeperInv, DeadlineInv, AttentionInv, ExitInv, Queue;
    assert p.work[0] in multiset(p.work);
    assert p.work[0] in multiset(p.scheduled);
  }
}
