/** A fixed pool of workers over the blocking queue, with a graceful shutdown: close the queue, let the workers
    drain it, join them. The threads of the queue are laid out as the workers first, then the one thread position
    of the closing call, then any number of submitters; a task is opaque and always returns. */
module ThreadPool {
  import opened Common
  import opened BlockingQueue
  import Q = BlockingQueue

  type Workers = n: nat | 1 <= n witness 1

  /** At least one worker. */
  function WorkerCount(requested: nat): (n: Workers)
    ensures requested > 0 ==> n == requested
    ensures requested == 0 ==> n == 1
  {
    if requested == 0 then 1 else requested
  }

  const CAPACITY: nat := 1024

  /** The pool's fields, changed in place, with one worker at a time on the queue. */
  class ThreadPool<T> {
    const workers: Workers
    const tasks: Q.BlockingQueue<T>
    var stopped: bool
    var ran: seq<T>

    constructor (requested: nat)
      ensures workers == WorkerCount(requested) && fresh(tasks)
      ensures tasks.capacity == CAPACITY == 1024 && tasks.State() == Monitor([], false) && !stopped && ran == []
    {
      workers := WorkerCount(requested);
      tasks := new Q.BlockingQueue(CAPACITY);
      stopped := false;
      ran := [];
    }

    /** One attempt of a submission; MustWait is the caller going to sleep. */
    method Submit(task: T) returns (step: PushStep)
      modifies tasks
      ensures step == Rejected <==> old(tasks.closed)
      ensures step == MustWait <==> !old(tasks.closed) && tasks.capacity != 0 && |old(tasks.queue)| >= tasks.capacity
      ensures tasks.queue == if step == Accepted then old(tasks.queue) + [task] else old(tasks.queue)
      ensures tasks.closed == old(tasks.closed)
    {
      step := tasks.PushLocked(task);
    }

    /** One worker runs everything queued, in order; then it leaves if the queue is closed and else waits in pop. */
    method WorkerLoop() returns (waits: bool)
      modifies this`ran, tasks
      ensures tasks.State() == Monitor([], old(tasks.closed))
      ensures ran == old(ran) + old(tasks.queue)
      ensures waits <==> !old(tasks.closed)
    {
      hide PopSection;
      ghost var queued := tasks.queue;
      var step := tasks.PopLocked();
      while step.Took?
        invariant tasks.closed == old(tasks.closed) && (step.Took? || tasks.queue == [])
        invariant step.Drained? ==> tasks.closed
        invariant step.Starved? ==> !tasks.closed
        invariant ran + (if step.Took? then [step.item] else []) + tasks.queue == old(ran) + queued
        decreases |tasks.queue| + if step.Took? then 1 else 0
      {
        ran := ran + [step.item];
        step := tasks.PopLocked();
      }
      waits := step.Starved?;
    }

    /** The first shutdown leaves no accepted task behind; a later one does nothing. */
    method Shutdown()
      modifies this, tasks
      ensures stopped
      ensures old(stopped) ==> ran == old(ran) && tasks.State() == old(tasks.State())
      ensures !old(stopped) ==> tasks.State() == Monitor([], true) && ran == old(ran) + old(tasks.queue)
    {
      var was := stopped;
      stopped := true;
      if was {
        return;
      }
      tasks.CloseLocked();
      for t := 0 to workers
        invariant stopped && tasks.closed && ran + tasks.queue == old(ran) + old(tasks.queue)
        invariant t > 0 ==> tasks.queue == []
      {
        var waits := WorkerLoop();
      }
      assert ran + [] == ran;
    }
  }

  /** A call of shutdown: before the exchange, after winning it, joining the workers in order, returned. */
  datatype Caller = Calling | Closing | Joining(next: nat) | Returned(won: bool)

  datatype Pool<T> = Pool(q: Queue<T>, stopped: bool, callers: seq<Caller>, ran: seq<T>)

  datatype Move =
    | OnQueue(act: Act)
    | RunTask(worker: nat)
    | Exchange(caller: nat)
    | Closed(caller: nat)
    | Join(caller: nat)

  predicate PopSide<T>(th: Thread<T>) {
    th.PopReady? || th.PopAsleep? || th.PopWoken? || th.PopOwes? || th.PopDone?
  }

  predicate CloseSide<T>(th: Thread<T>) {
    th.CloseReady? || th.CloseOwesBoth? || th.CloseOwesPushers? || th.CloseDone?
  }

  predicate PushSide<T>(th: Thread<T>) {
    th.PushReady? || th.PushAsleep? || th.PushWoken? || th.PushOwes? || th.PushDone?
  }

  predicate SameSide<T>(th: Thread<T>, th': Thread<T>) {
    && (PopSide(th') <==> PopSide(th))
    && (CloseSide(th') <==> CloseSide(th))
    && (PushSide(th') <==> PushSide(th))
  }

  predicate LaidOut<T>(workers: nat, threads: seq<Thread<T>>) {
    && workers < |threads|
    && (forall t :: 0 <= t < workers ==> PopSide(threads[t]))
    && CloseSide(threads[workers])
    && (forall t :: workers < t < |threads| ==> PushSide(threads[t]))
  }

  /** The worker's pop came back empty-handed, so its loop is over. */
  predicate HasLeft<T>(th: Thread<T>) {
    th.PopDone? && th.result.None?
  }

  /** The closing call runs only for the shutdown that won; a worker pops again only after running its task; a
      joiner passes a worker only once that worker has left its loop. */
  predicate CanMove<T>(workers: nat, p: Pool<T>, mv: Move) {
    && LaidOut(workers, p.q.threads)
    && match mv
       case OnQueue(a) =>
         CanAct(p.q, a) && !a.Again? && (p.q.threads[a.thread].CloseReady? ==> Closing in p.callers)
       case RunTask(w) => w < workers && CanAct(p.q, Again(w))
       case Exchange(j) => j < |p.callers| && p.callers[j].Calling?
       case Closed(j) => j < |p.callers| && p.callers[j].Closing? && p.q.threads[workers].CloseDone?
       case Join(j) =>
         && j < |p.callers| && p.callers[j].Joining?
         && (p.callers[j].next < workers ==> HasLeft(p.q.threads[p.callers[j].next]))
  }

  function DoMove<T>(workers: nat, p: Pool<T>, mv: Move): Pool<T>
    requires CanMove(workers, p, mv)
  {
    match mv
    case OnQueue(a) => p.(q := DoAct(CAPACITY, p.q, a))
    case RunTask(w) => p.(q := DoAct(CAPACITY, p.q, Again(w)), ran := p.ran + [p.q.threads[w].result.value])
    case Exchange(j) => p.(stopped := true, callers := p.callers[j := if p.stopped then Returned(false) else Closing])
    case Closed(j) => p.(callers := p.callers[j := Joining(0)])
    case Join(j) =>
      var k := p.callers[j].next;
      p.(callers := p.callers[j := if k < workers then Joining(k + 1) else Returned(true)])
  }

  /** A pool with its workers started, some tasks about to be submitted and some shutdown calls about to be made. */
  ghost predicate Initial<T>(workers: nat, p: Pool<T>) {
    && p.q == Queue(Monitor([], false), p.q.threads, [], [])
    && LaidOut(workers, p.q.threads) && AllReady(p.q.threads)
    && !p.stopped && p.ran == []
    && (forall j :: 0 <= j < |p.callers| ==> p.callers[j] == Calling)
  }

  function RunPool<T>(workers: nat, start: Pool<T>, moves: seq<Move>): Pool<T> {
    if moves == [] then start
    else
      var p := RunPool(workers, start, moves[..|moves| - 1]);
      var mv := moves[|moves| - 1];
      if CanMove(workers, p, mv) then DoMove(workers, p, mv) else p
  }

  // ----- Tasks as bags -----

  /** The task a thread stands for: one whose push was accepted, or one popped and not yet run. */
  function TaskOf<T>(th: Thread<T>, submitted: bool): Option<T> {
    match th
    case PushOwes(item) => if submitted then Some(item) else None
    case PushDone(item, accepted) => if submitted && accepted then Some(item) else None
    case PopOwes(item) => if submitted then None else Some(item)
    case PopDone(result) => if submitted then None else result
    case _ => None
  }

  ghost function Single<T>(o: Option<T>): multiset<T> {
    if o.Some? then multiset{o.value} else multiset{}
  }

  ghost function Bag<T>(threads: seq<Thread<T>>, submitted: bool): multiset<T> {
    if threads == [] then multiset{}
    else Bag(threads[..|threads| - 1], submitted) + Single(TaskOf(threads[|threads| - 1], submitted))
  }

  lemma {:induction false} BagUpdate<T>(threads: seq<Thread<T>>, t: nat, th: Thread<T>, submitted: bool)
    requires t < |threads|
    ensures Bag(threads[t := th], submitted) + Single(TaskOf(threads[t], submitted))
         == Bag(threads, submitted) + Single(TaskOf(th, submitted))
  {
    hide TaskOf, Single;
    var n := |threads| - 1;
    var updated := threads[t := th];
    var was, now := Single(TaskOf(threads[t], submitted)), Single(TaskOf(th, submitted));
    if t == n {
      assert updated[..n] == threads[..n];
      SwapLast(Bag(threads[..n], submitted), now, was);
    } else {
      assert updated[..n] == threads[..n][t := th];
      BagUpdate(threads[..n], t, th, submitted);
      var last := Single(TaskOf(threads[n], submitted));
      SwapLast(Bag(updated[..n], submitted), last, was);
      SwapLast(Bag(threads[..n], submitted), now, last);
    }
  }

  lemma SwapLast<T>(a: multiset<T>, b: multiset<T>, c: multiset<T>)
    ensures a + b + c == a + c + b
  {
  }

  /** A change of one thread that stands for the same task as before, for one more, and for one less. */
  lemma SameTask<T>(threads: seq<Thread<T>>, t: nat, th: Thread<T>, submitted: bool)
    requires t < |threads| && TaskOf(th, submitted) == TaskOf(threads[t], submitted)
    ensures Bag(threads[t := th], submitted) == Bag(threads, submitted)
  {
    hide TaskOf, Bag, Single;
    BagUpdate(threads, t, th, submitted);
    var a, b, c := Bag(threads[t := th], submitted), Bag(threads, submitted), Single(TaskOf(th, submitted));
    assert a == a + c - c && b == b + c - c;
  }

  lemma GainTask<T>(threads: seq<Thread<T>>, t: nat, th: Thread<T>, task: T, submitted: bool)
    requires t < |threads| && TaskOf(threads[t], submitted) == None && TaskOf(th, submitted) == Some(task)
    ensures Bag(threads[t := th], submitted) == Bag(threads, submitted) + multiset{task}
  {
    hide TaskOf, Bag;
    BagUpdate(threads, t, th, submitted);
    var b: multiset<T> := Bag(threads[t := th], submitted);
    assert b + multiset{} == b;
  }

  lemma LoseTask<T>(threads: seq<Thread<T>>, t: nat, th: Thread<T>, task: T, submitted: bool)
    requires t < |threads| && TaskOf(threads[t], submitted) == Some(task) && TaskOf(th, submitted) == None
    ensures Bag(threads, submitted) == Bag(threads[t := th], submitted) + multiset{task}
  {
    hide TaskOf, Bag;
    BagUpdate(threads, t, th, submitted);
    var b: multiset<T> := Bag(threads, submitted);
    assert b + multiset{} == b;
  }

  lemma {:induction false} BagEmpty<T>(threads: seq<Thread<T>>, submitted: bool)
    requires forall t :: 0 <= t < |threads| ==> TaskOf(threads[t], submitted) == None
    ensures Bag(threads, submitted) == multiset{}
  {
    hide TaskOf;
    if threads != [] {
      BagEmpty(threads[..|threads| - 1], submitted);
    }
  }

  lemma {:induction false} WakeAllBag<T>(threads: seq<Thread<T>>, poppers: bool, submitted: bool)
    ensures Bag(WakeAll(threads, poppers), submitted) == Bag(threads, submitted)
  {
    hide Single;
    if threads != [] {
      var n := |threads| - 1;
      WakeAllBag(threads[..n], poppers, submitted);
      assert WakeAll(threads, poppers)[..n] == WakeAll(threads[..n], poppers);
    }
  }

  lemma NotifyOneBag<T>(q: Queue<T>, t: nat, target: nat, submitted: bool)
    requires t < |q.threads| && (q.threads[t].PushOwes? || q.threads[t].PopOwes?)
    ensures Bag(DoNotify(q, t, target).threads, submitted) == Bag(q.threads, submitted)
  {
    hide Bag, WakeAll;
    var owes := q.threads[t];
    var done := if owes.PushOwes? then PushDone(owes.item, true) else PopDone(Some(owes.item));
    if (if owes.PushOwes? then IsPopSleeper(q.threads, target) else IsPushSleeper(q.threads, target)) {
      SameTask(q.threads, target, Woken(q.threads[target]), submitted);
      SameTask(WakeOne(q.threads, target), t, done, submitted);
    } else {
      SameTask(q.threads, t, done, submitted);
    }
  }

  /** Notifying moves no task. */
  lemma NotifyBag<T>(q: Queue<T>, t: nat, target: nat, submitted: bool)
    requires CanAct(q, Notify(t, target))
    ensures Bag(DoNotify(q, t, target).threads, submitted) == Bag(q.threads, submitted)
  {
    hide Bag, WakeAll;
    var owes := q.threads[t];
    if owes.PushOwes? || owes.PopOwes? {
      NotifyOneBag(q, t, target, submitted);
    } else {
      var poppers := owes.CloseOwesBoth?;
      WakeAllBag(q.threads, poppers, submitted);
      WakeAllKeeps(q.threads, poppers, t);
      SameTask(WakeAll(q.threads, poppers), t, if poppers then CloseOwesPushers else CloseDone, submitted);
    }
  }

  /** Accepting a push adds its task to both records, and popping one moves it to the worker. */
  ghost predicate Accounted<T>(q: Queue<T>, ran: seq<T>) {
    && multiset(q.accepted) == Bag(q.threads, true)
    && multiset(q.taken) == multiset(ran) + Bag(q.threads, false)
  }

  lemma PushAccounts<T>(q: Queue<T>, t: nat, ran: seq<T>)
    requires t < |q.threads| && (q.threads[t].PushReady? || q.threads[t].PushWoken?) && Accounted(q, ran)
    ensures Accounted(DoPush(CAPACITY, q, t), ran)
  {
    hide Bag;
    var q' := DoPush(CAPACITY, q, t);
    var th' := q'.threads[t];
    SameTask(q.threads, t, th', false);
    if th'.PushOwes? {
      GainTask(q.threads, t, th', th'.item, true);
    } else {
      SameTask(q.threads, t, th', true);
    }
  }

  lemma PopAccounts<T>(q: Queue<T>, t: nat, ran: seq<T>)
    requires t < |q.threads| && (q.threads[t].PopReady? || q.threads[t].PopWoken?) && Accounted(q, ran)
    ensures Accounted(DoPop(q, t), ran)
  {
    hide Bag;
    var q' := DoPop(q, t);
    var th' := q'.threads[t];
    SameTask(q.threads, t, th', true);
    if th'.PopOwes? {
      GainTask(q.threads, t, th', th'.item, false);
      Regroup(multiset(ran), Bag(q.threads, false), multiset{th'.item});
    } else {
      SameTask(q.threads, t, th', false);
    }
  }

  lemma Regroup<T>(a: multiset<T>, b: multiset<T>, c: multiset<T>)
    ensures a + b + c == a + (b + c) == a + c + b
  {
  }

  lemma ActAccounts<T>(q: Queue<T>, a: Act, ran: seq<T>)
    requires CanAct(q, a) && !a.Again? && Accounted(q, ran)
    ensures Accounted(DoAct(CAPACITY, q, a), ran)
  {
    hide Bag, DoPush, DoPop, DoNotify;
    var t := a.thread;
    var th := q.threads[t];
    if a.Notify? {
      NotifyBag(q, t, a.target, true);
      NotifyBag(q, t, a.target, false);
      assert DoNotify(q, t, a.target).accepted == q.accepted && DoNotify(q, t, a.target).taken == q.taken by {
        NotifyRecords(q, t, a.target);
      }
    } else if th.PushReady? || (th.PushWoken? && a.Section?) {
      PushAccounts(q, t, ran);
    } else if th.PopReady? || (th.PopWoken? && a.Section?) {
      PopAccounts(q, t, ran);
    } else {
      var th': Thread<T> := if a.Wake? then Woken(th) else CloseOwesBoth;
      SameTask(q.threads, t, th', true);
      SameTask(q.threads, t, th', false);
    }
  }

  lemma NotifyRecords<T>(q: Queue<T>, t: nat, target: nat)
    requires t < |q.threads|
    ensures DoNotify(q, t, target).accepted == q.accepted && DoNotify(q, t, target).taken == q.taken
  {
  }

  lemma TaskAccounts<T>(q: Queue<T>, w: nat, ran: seq<T>)
    requires CanAct(q, Again(w)) && Accounted(q, ran)
    ensures Accounted(DoAct(CAPACITY, q, Again(w)), ran + [q.threads[w].result.value])
  {
    hide Bag;
    var task := q.threads[w].result.value;
    SameTask(q.threads, w, PopReady, true);
    LoseTask(q.threads, w, PopReady, task, false);
    assert multiset(ran + [task]) == multiset(ran) + multiset{task};
    Regroup(multiset(ran), Bag(q.threads[w := PopReady], false), multiset{task});
  }

  // ----- The invariant -----

  predicate Won(c: Caller) {
    c.Closing? || c.Joining? || c == Returned(true)
  }

  /** Only one shutdown wins; it joins after the close is over, and the workers it has joined have left. */
  ghost predicate CallersFit<T>(workers: nat, p: Pool<T>)
    requires LaidOut(workers, p.q.threads)
  {
    && (forall i, j :: 0 <= i < j < |p.callers| ==> !(Won(p.callers[i]) && Won(p.callers[j])))
    && (p.stopped <==> exists j :: 0 <= j < |p.callers| && Won(p.callers[j]))
    && (!p.stopped ==> forall j :: 0 <= j < |p.callers| ==> p.callers[j].Calling?)
    && (forall j :: 0 <= j < |p.callers| ==> JoinFits(workers, p, p.callers[j]))
  }

  ghost predicate JoinFits<T>(workers: nat, p: Pool<T>, c: Caller)
    requires LaidOut(workers, p.q.threads)
  {
    && (c.Joining? || c == Returned(true) ==> p.q.threads[workers].CloseDone?)
    && (c.Joining? ==> c.next <= workers && forall t :: 0 <= t < c.next ==> p.q.threads[t] == PopDone(None))
    && (c == Returned(true) ==> forall t :: 0 <= t < workers ==> p.q.threads[t] == PopDone(None))
  }

  ghost predicate PoolInv<T>(workers: nat, p: Pool<T>) {
    && LaidOut(workers, p.q.threads)
    && QueueInv(CAPACITY, p.q)
    && Accounted(p.q, p.ran)
    && CallersFit(workers, p)
  }

  /** What an act can do to a thread: its side stays, and a thread that is through stays as it is. */
  lemma ActTouches<T>(q: Queue<T>, a: Act, u: nat)
    requires CanAct(q, a) && u < |q.threads|
    ensures |DoAct(CAPACITY, q, a).threads| == |q.threads|
    ensures var th, th' := q.threads[u], DoAct(CAPACITY, q, a).threads[u];
            && SameSide(th, th')
            && (th == PopDone(None) || th.CloseDone? ==> th' == th)
  {
    hide WakeAll;
    if a.Notify? {
      NotifyTouches(q, a.thread, a.target, u);
    }
  }

  lemma ActKeepsLayout<T>(workers: nat, p: Pool<T>, a: Act)
    requires LaidOut(workers, p.q.threads) && CallersFit(workers, p) && CanAct(p.q, a)
    ensures var p' := p.(q := DoAct(CAPACITY, p.q, a));
            LaidOut(workers, p'.q.threads) && CallersFit(workers, p')
  {
    hide DoAct, CanAct;
    var q' := DoAct(CAPACITY, p.q, a);
    forall u | 0 <= u < |p.q.threads|
      ensures |q'.threads| == |p.q.threads|
      ensures var th, th' := p.q.threads[u], q'.threads[u];
              && SameSide(th, th')
              && (th == PopDone(None) || th.CloseDone? ==> th' == th)
    {
      ActTouches(p.q, a, u);
    }
    forall j | 0 <= j < |p.callers|
      ensures JoinFits(workers, p.(q := q'), p.callers[j])
    {
      assert JoinFits(workers, p, p.callers[j]);
    }
  }

  lemma MoveKeeps<T>(workers: nat, p: Pool<T>, mv: Move)
    requires PoolInv(workers, p) && CanMove(workers, p, mv)
    ensures PoolInv(workers, DoMove(workers, p, mv))
  {
    hide QueueInv, Accounted, DoAct, CanAct;
    match mv {
      case OnQueue(a) =>
        ActKeeps(CAPACITY, p.q, a);
        ActAccounts(p.q, a, p.ran);
        ActKeepsLayout(workers, p, a);
      case RunTask(w) =>
        ActKeeps(CAPACITY, p.q, Again(w));
        TaskAccounts(p.q, w, p.ran);
        ActKeepsLayout(workers, p, Again(w));
      case _ => CallerMoveKeeps(workers, p, mv);
    }
  }

  lemma CallerMoveKeeps<T>(workers: nat, p: Pool<T>, mv: Move)
    requires LaidOut(workers, p.q.threads) && CallersFit(workers, p)
    requires CanMove(workers, p, mv) && !mv.OnQueue? && !mv.RunTask?
    ensures var p' := DoMove(workers, p, mv); p'.q == p.q && p'.ran == p.ran && CallersFit(workers, p')
  {
    hide DoAct, CanAct;
    var p' := DoMove(workers, p, mv);
    assert Won(p'.callers[mv.caller]) || exists j :: 0 <= j < |p.callers| && j != mv.caller && Won(p.callers[j]);
    forall j | 0 <= j < |p'.callers|
      ensures JoinFits(workers, p', p'.callers[j])
      ensures Won(p.callers[j]) && j != mv.caller ==> Won(p'.callers[j])
    {
      assert JoinFits(workers, p, p.callers[j]);
    }
  }

  lemma InitialInv<T>(workers: nat, p: Pool<T>)
    requires Initial(workers, p)
    ensures PoolInv(workers, p)
  {
    AlwaysQueueInv(CAPACITY, p.q.threads, []);
    BagEmpty(p.q.threads, true);
    BagEmpty(p.q.threads, false);
  }

  lemma {:induction false} AlwaysPoolInv<T>(workers: nat, start: Pool<T>, moves: seq<Move>)
    requires Initial(workers, start)
    ensures PoolInv(workers, RunPool(workers, start, moves))
  {
    hide PoolInv, Initial, CanMove, DoMove;
    if moves == [] {
      InitialInv(workers, start);
    } else {
      var p := RunPool(workers, start, moves[..|moves| - 1]);
      AlwaysPoolInv(workers, start, moves[..|moves| - 1]);
      if CanMove(workers, p, moves[|moves| - 1]) {
        MoveKeeps(workers, p, moves[|moves| - 1]);
      }
    }
  }

  // ----- Shutdown drains -----

  /** Once the winning shutdown has returned: the queue is closed and empty, every worker has left, the tasks were
      dequeued in the order of acceptance, and the tasks run are, each exactly as often, the tasks whose submission
      was accepted. */
  ghost predicate Drained<T>(workers: nat, p: Pool<T>) {
    && p.q.m.closed && p.q.m.items == []
    && (forall t :: 0 <= t < workers && t < |p.q.threads| ==> p.q.threads[t] == PopDone(None))
    && p.q.taken == p.q.accepted
    && multiset(p.ran) == multiset(p.q.accepted) == Bag(p.q.threads, true)
  }

  lemma DrainedFrom<T>(workers: nat, p: Pool<T>)
    requires PoolInv(workers, p) && workers >= 1 && Returned(true) in p.callers
    ensures Drained(workers, p)
  {
    var j :| 0 <= j < |p.callers| && p.callers[j] == Returned(true);
    assert JoinFits(workers, p, p.callers[j]);
    assert p.q.threads[0] == PopDone(None);
    BagEmpty(p.q.threads, false);
  }

  lemma ShutdownDrains<T>(requested: nat, start: Pool<T>, moves: seq<Move>)
    requires Initial(WorkerCount(requested), start)
    requires Returned(true) in RunPool(WorkerCount(requested), start, moves).callers
    ensures Drained(WorkerCount(requested), RunPool(WorkerCount(requested), start, moves))
  {
    hide PoolInv, Initial, CanMove, DoMove;
    AlwaysPoolInv(WorkerCount(requested), start, moves);
    DrainedFrom(WorkerCount(requested), RunPool(WorkerCount(requested), start, moves));
  }

  // ----- Shutdown returns -----

  /** As long as a shutdown call has not returned, something other than a spurious wakeup can happen. */
  ghost predicate Lively<T>(workers: nat, p: Pool<T>) {
    (exists c :: c in p.callers && !c.Returned?) ==>
      exists mv :: CanMove(workers, p, mv) && !(mv.OnQueue? && mv.act.Wake?)
  }

  /** Which move that is for the j-th call. */
  lemma LivelyMove<T>(workers: nat, p: Pool<T>, j: nat) returns (mv: Move)
    requires PoolInv(workers, p) && j < |p.callers| && !p.callers[j].Returned?
    ensures CanMove(workers, p, mv) && !(mv.OnQueue? && mv.act.Wake?)
  {
    hide Covered, Fifo, Bag;
    var closer := p.q.threads[workers];
    match p.callers[j] {
      case Calling => mv := Exchange(j);
      case Closing =>
        if closer.CloseReady? {
          mv := OnQueue(Section(workers));
        } else if closer.CloseDone? {
          mv := Closed(j);
        } else {
          mv := OnQueue(Notify(workers, 0));
        }
      case Joining(k) =>
        assert JoinFits(workers, p, p.callers[j]);
        if k == workers || p.q.threads[k] == PopDone(None) {
          mv := Join(j);
        } else {
          mv := WorkerMove(workers, p, k);
        }
    }
  }

  /** After the close no worker sleeps: the closing call's notify_all has been issued. */
  lemma NoWorkerSleeps<T>(workers: nat, p: Pool<T>, w: nat)
    requires PoolInv(workers, p) && w < workers && p.q.threads[workers].CloseDone?
    ensures !p.q.threads[w].PopAsleep?
  {
    hide Bag, Fifo;
    CountZero(p.q.threads, ClosersOwingBoth);
    if p.q.threads[w].PopAsleep? {
      CountPositive(p.q.threads, w, PoppersAsleep);
    }
  }

  lemma WorkerMove<T>(workers: nat, p: Pool<T>, w: nat) returns (mv: Move)
    requires PoolInv(workers, p) && w < workers
    requires p.q.threads[workers].CloseDone? && p.q.threads[w] != PopDone(None)
    ensures CanMove(workers, p, mv) && !(mv.OnQueue? && mv.act.Wake?)
  {
    hide QueueInv, Accounted, CallersFit;
    NoWorkerSleeps(workers, p, w);
    var th := p.q.threads[w];
    if th.PopDone? {
      mv := RunTask(w);
    } else if th.PopOwes? {
      var target: nat := 0;
      if !NoSleeper(p.q.threads, false) {
        var u :| 0 <= u < |p.q.threads| && p.q.threads[u].PushAsleep?;
        target := u;
      }
      mv := OnQueue(Notify(w, target));
    } else {
      mv := OnQueue(Section(w));
    }
  }

  /** A shutdown call never hangs. */
  lemma NeverHangs<T>(workers: nat, start: Pool<T>, moves: seq<Move>)
    requires Initial(workers, start)
    ensures Lively(workers, RunPool(workers, start, moves))
  {
    hide PoolInv, Initial, CanMove, DoMove;
    var p := RunPool(workers, start, moves);
    AlwaysPoolInv(workers, start, moves);
    if c :| c in p.callers && !c.Returned? {
      var j :| 0 <= j < |p.callers| && p.callers[j] == c;
      var mv := LivelyMove(workers, p, j);
    }
  }

  // ----- Runs come to an end -----

  /** How much a thread still has to do. A sleeper counts less than a woken thread while the queue is open, as it
      may go back to sleep, and more once it is closed, as it cannot. */
  function Weight<T>(th: Thread<T>, closed: bool, n: nat): nat {
    match th
    case PushReady(_) => 7
    case PushAsleep(_) => if closed then 8 else 6
    case PushWoken(_) => 7
    case PushOwes(_) => 2
    case PushDone(_, _) => 0
    case PopReady => 2
    case PopAsleep => if closed then 3 else 1
    case PopWoken => 2
    case PopOwes(_) => 5
    case PopDone(result) => if result.Some? then 3 else 0
    case CloseReady => 3 + 2 * n
    case CloseOwesBoth => 2
    case CloseOwesPushers => 1
    case CloseDone => 0
  }

  function Load<T>(threads: seq<Thread<T>>, closed: bool, n: nat): nat {
    if threads == [] then 0
    else Load(threads[..|threads| - 1], closed, n) + Weight(threads[|threads| - 1], closed, n)
  }

  function QueueWork<T>(q: Queue<T>): nat {
    4 * |q.m.items| + Load(q.threads, q.m.closed, |q.threads|)
  }

  function CallerWeight(workers: nat, c: Caller): nat {
    match c
    case Calling => workers + 4
    case Closing => workers + 3
    case Joining(k) => if k <= workers then workers - k + 1 else 1
    case Returned(_) => 0
  }

  function CallerWork(workers: nat, callers: seq<Caller>): nat {
    if callers == [] then 0
    else CallerWork(workers, callers[..|callers| - 1]) + CallerWeight(workers, callers[|callers| - 1])
  }

  function Work<T>(workers: nat, p: Pool<T>): nat {
    QueueWork(p.q) + CallerWork(workers, p.callers)
  }

  lemma {:induction false} LoadUpdate<T>(threads: seq<Thread<T>>, t: nat, th: Thread<T>, closed: bool, n: nat)
    requires t < |threads|
    ensures Load(threads[t := th], closed, n)
         == Load(threads, closed, n) - Weight(threads[t], closed, n) + Weight(th, closed, n)
  {
    hide Weight;
    var m := |threads| - 1;
    if t == m {
      assert threads[t := th][..m] == threads[..m];
    } else {
      assert threads[t := th][..m] == threads[..m][t := th];
      LoadUpdate(threads[..m], t, th, closed, n);
    }
  }

  lemma {:induction false} CallerWorkUpdate(workers: nat, callers: seq<Caller>, j: nat, c: Caller)
    requires j < |callers|
    ensures CallerWork(workers, callers[j := c])
         == CallerWork(workers, callers) - CallerWeight(workers, callers[j]) + CallerWeight(workers, c)
  {
    hide CallerWeight;
    var m := |callers| - 1;
    if j == m {
      assert callers[j := c][..m] == callers[..m];
    } else {
      assert callers[j := c][..m] == callers[..m][j := c];
      CallerWorkUpdate(workers, callers[..m], j, c);
    }
  }

  lemma {:induction false} LoadOnClose<T>(threads: seq<Thread<T>>, n: nat)
    ensures Load(threads, true, n) <= Load(threads, false, n) + 2 * |threads|
  {
    if threads != [] {
      LoadOnClose(threads[..|threads| - 1], n);
    }
  }

  lemma {:induction false} LoadOnWakeAll<T>(threads: seq<Thread<T>>, poppers: bool, n: nat)
    ensures Load(WakeAll(threads, poppers), true, n) <= Load(threads, true, n)
  {
    if threads != [] {
      var m := |threads| - 1;
      LoadOnWakeAll(threads[..m], poppers, n);
      assert WakeAll(threads, poppers)[..m] == WakeAll(threads[..m], poppers);
    }
  }

  lemma NotifyDrops<T>(q: Queue<T>, t: nat, target: nat)
    requires CanAct(q, Notify(t, target)) && EndsFit(q)
    ensures QueueWork(DoNotify(q, t, target)) < QueueWork(q)
  {
    hide Load, WakeAll;
    var owes, closed, n := q.threads[t], q.m.closed, |q.threads|;
    if owes.PushOwes? || owes.PopOwes? {
      var done := if owes.PushOwes? then PushDone(owes.item, true) else PopDone(Some(owes.item));
      if (if owes.PushOwes? then IsPopSleeper(q.threads, target) else IsPushSleeper(q.threads, target)) {
        LoadUpdate(q.threads, target, Woken(q.threads[target]), closed, n);
        LoadUpdate(WakeOne(q.threads, target), t, done, closed, n);
      } else {
        LoadUpdate(q.threads, t, done, closed, n);
      }
    } else {
      var poppers := owes.CloseOwesBoth?;
      LoadOnWakeAll(q.threads, poppers, n);
      WakeAllKeeps(q.threads, poppers, t);
      LoadUpdate(WakeAll(q.threads, poppers), t, if poppers then CloseOwesPushers else CloseDone, true, n);
    }
  }

  lemma SectionDrops<T>(q: Queue<T>, t: nat)
    requires CanAct(q, Section(t))
    ensures QueueWork(DoAct(CAPACITY, q, Section(t))) < QueueWork(q)
  {
    hide Load;
    var q' := DoAct(CAPACITY, q, Section(t));
    assert q'.threads == q.threads[t := q'.threads[t]];
    LoadUpdate(q.threads, t, q'.threads[t], q.m.closed, |q.threads|);
    if q.threads[t].CloseReady? {
      LoadOnClose(q'.threads, |q.threads|);
    }
  }

  /** Every act but a spurious wakeup brings the queue's end nearer, and once the queue is closed that does too. */
  lemma ActDrops<T>(q: Queue<T>, a: Act)
    requires CanAct(q, a) && EndsFit(q)
    ensures QueueWork(DoAct(CAPACITY, q, a)) < QueueWork(q) + if a.Wake? && !q.m.closed then 2 else 0
  {
    hide Load, DoPush, DoPop, DoNotify;
    match a {
      case Section(t) => SectionDrops(q, t);
      case Notify(t, target) => NotifyDrops(q, t, target);
      case Wake(t) => LoadUpdate(q.threads, t, Woken(q.threads[t]), q.m.closed, |q.threads|);
      case Again(t) => LoadUpdate(q.threads, t, PopReady, q.m.closed, |q.threads|);
    }
  }

  /** A spurious wakeup while the queue is open. */
  predicate IdleWake<T>(p: Pool<T>, mv: Move) {
    mv.OnQueue? && mv.act.Wake? && !p.q.m.closed
  }

  lemma MoveDrops<T>(workers: nat, p: Pool<T>, mv: Move)
    requires PoolInv(workers, p) && CanMove(workers, p, mv)
    ensures Work(workers, DoMove(workers, p, mv)) < Work(workers, p) + if IdleWake(p, mv) then 2 else 0
  {
    hide QueueWork, DoAct, CanAct, EndsFit, Accounted, Covered, Fifo;
    match mv {
      case OnQueue(a) => ActDrops(p.q, a);
      case RunTask(w) => ActDrops(p.q, Again(w));
      case _ =>
        var j := mv.caller;
        assert JoinFits(workers, p, p.callers[j]);
        CallerWorkUpdate(workers, p.callers, j, DoMove(workers, p, mv).callers[j]);
    }
  }

  /** The moves of a run that took place, and the idle wakeups among them. */
  function MovesMade<T>(workers: nat, start: Pool<T>, moves: seq<Move>): nat {
    if moves == [] then 0
    else
      var p, mv := RunPool(workers, start, moves[..|moves| - 1]), moves[|moves| - 1];
      MovesMade(workers, start, moves[..|moves| - 1]) + One(CanMove(workers, p, mv))
  }

  function IdleWakes<T>(workers: nat, start: Pool<T>, moves: seq<Move>): nat {
    if moves == [] then 0
    else
      var p, mv := RunPool(workers, start, moves[..|moves| - 1]), moves[|moves| - 1];
      IdleWakes(workers, start, moves[..|moves| - 1]) + One(CanMove(workers, p, mv) && IdleWake(p, mv))
  }

  /** No run goes on forever unless the waits of an open queue wake spuriously forever: a bound fixed by the start
      alone, plus two moves per such wakeup. */
  lemma {:induction false} PoolRunsAreBounded<T>(workers: nat, start: Pool<T>, moves: seq<Move>)
    requires Initial(workers, start)
    ensures MovesMade(workers, start, moves) + Work(workers, RunPool(workers, start, moves))
         <= Work(workers, start) + 2 * IdleWakes(workers, start, moves)
  {
    hide PoolInv, Initial, CanMove, DoMove, Work, IdleWake;
    if moves != [] {
      var before, mv := RunPool(workers, start, moves[..|moves| - 1]), moves[|moves| - 1];
      PoolRunsAreBounded(workers, start, moves[..|moves| - 1]);
      if CanMove(workers, before, mv) {
        AlwaysPoolInv(workers, start, moves[..|moves| - 1]);
        MoveDrops(workers, before, mv);
      }
    }
  }

  /** A run that has come to rest: nothing can happen any more but a spurious wakeup. */
  ghost predicate Quiet<T>(workers: nat, p: Pool<T>) {
    forall mv :: CanMove(workers, p, mv) ==> mv.OnQueue? && mv.act.Wake?
  }

  /** Every call has returned, and only one of them did the shutting down. */
  ghost predicate OneWinner(callers: seq<Caller>) {
    exists j :: 0 <= j < |callers| && callers[j] == Returned(true) &&
                forall i :: 0 <= i < |callers| && i != j ==> callers[i] == Returned(false)
  }

  /** Where runs end: every shutdown call has returned, exactly one of them as the winner, and the pool is drained. */
  lemma ShutdownCompletes<T>(requested: nat, start: Pool<T>, moves: seq<Move>)
    requires Initial(WorkerCount(requested), start) && start.callers != []
    requires Quiet(WorkerCount(requested), RunPool(WorkerCount(requested), start, moves))
    ensures var p := RunPool(WorkerCount(requested), start, moves);
            && OneWinner(p.callers)
            && Drained(WorkerCount(requested), p)
  {
    hide Initial, CanMove, DoMove, Drained, QueueInv, Accounted;
    var workers := WorkerCount(requested);
    var p := RunPool(workers, start, moves);
    AlwaysPoolInv(workers, start, moves);
    SameCallers(workers, start, moves);
    NeverHangs(workers, start, moves);
    assert forall i :: 0 <= i < |p.callers| ==> p.callers[i] in p.callers && p.callers[i].Returned?;
    assert p.callers[0].Returned?;
    var j :| 0 <= j < |p.callers| && Won(p.callers[j]);
    DrainedFrom(workers, p);
  }

  lemma {:induction false} SameCallers<T>(workers: nat, start: Pool<T>, moves: seq<Move>)
    ensures |RunPool(workers, start, moves).callers| == |start.callers|
  {
    hide DoAct, CanAct;
    if moves != [] {
      SameCallers(workers, start, moves[..|moves| - 1]);
    }
  }
}
