/** A bounded blocking queue: a monitor with two condition variables and a close flag.

    The mutex makes each stretch of code between locking and unlocking (or going to sleep) one atomic step.
    Notifications are issued after unlocking, so between the two a thread owes one; waits may wake spuriously. */
module BlockingQueue {
  import opened Common

  /** What the mutex protects. */
  datatype Monitor<T> = Monitor(items: seq<T>, closed: bool)

  predicate IsFull(capacity: nat, size: nat) {
    capacity != 0 && size >= capacity
  }

  datatype PushStep = MustWait | Rejected | Accepted

  /** The critical section of a push, run on entry and again after every wakeup. */
  function PushSection<T>(capacity: nat, m: Monitor<T>, item: T): (PushStep, Monitor<T>) {
    if !m.closed && IsFull(capacity, |m.items|) then (MustWait, m)
    else if m.closed then (Rejected, m)
    else (Accepted, m.(items := m.items + [item]))
  }

  datatype PopStep<T> = Starved | Drained | Took(item: T)

  /** The critical section of a pop. */
  function PopSection<T>(m: Monitor<T>): (PopStep<T>, Monitor<T>) {
    if !m.closed && m.items == [] then (Starved, m)
    else if m.items == [] then (Drained, m)
    else (Took(m.items[0]), m.(items := m.items[1..]))
  }

  /** The queue's own fields, changed in place; each method is one critical section. */
  class BlockingQueue<T> {
    const capacity: nat
    var queue: seq<T>
    var closed: bool

    constructor (capacity: nat)
      ensures this.capacity == capacity && State() == Monitor([], false)
    {
      this.capacity := capacity;
      queue := [];
      closed := false;
    }

    ghost function State(): Monitor<T>
      reads this
    {
      Monitor(queue, closed)
    }

    method PushLocked(item: T) returns (step: PushStep)
      modifies this
      ensures (step, State()) == PushSection(capacity, old(State()), item)
      ensures step == Rejected <==> old(closed)
      ensures step == MustWait <==> !old(closed) && capacity != 0 && |old(queue)| >= capacity
      ensures queue == if step == Accepted then old(queue) + [item] else old(queue)
      ensures closed == old(closed)
      ensures capacity != 0 && |old(queue)| <= capacity ==> |queue| <= capacity
    {
      if !closed && IsFull(capacity, |queue|) {
        return MustWait;
      }
      if closed {
        return Rejected;
      }
      queue := queue + [item];
      return Accepted;
    }

    method PopLocked() returns (step: PopStep<T>)
      modifies this
      ensures (step, State()) == PopSection(old(State()))
      ensures step.Took? <==> old(queue) != []
      ensures step.Took? ==> old(queue) == [step.item] + queue
      ensures step.Drained? <==> old(closed) && old(queue) == []
      ensures step.Starved? <==> !old(closed) && old(queue) == []
      ensures !step.Took? ==> queue == []
      ensures closed == old(closed)
    {
      if !closed && queue == [] {
        return Starved;
      }
      if queue == [] {
        return Drained;
      }
      step := Took(queue[0]);
      queue := queue[1..];
    }

    method CloseLocked()
      modifies this
      ensures closed && queue == old(queue)
    {
      closed := true;
    }
  }

  // ----- Any number of threads -----

  /** A thread in a push, a pop or a close. Asleep is waiting on the condition variable, woken is released from it
      but not yet back in the mutex, owing is past the mutex with its notification still to be issued. */
  datatype Thread<T> =
    | PushReady(item: T)
    | PushAsleep(item: T)
    | PushWoken(item: T)
    | PushOwes(item: T)
    | PushDone(item: T, accepted: bool)
    | PopReady
    | PopAsleep
    | PopWoken
    | PopOwes(item: T)
    | PopDone(result: Option<T>)
    | CloseReady
    | CloseOwesBoth
    | CloseOwesPushers
    | CloseDone

  /** `accepted` and `taken` are histories: accepted pushes and popped items, in the order of their sections. */
  datatype Queue<T> = Queue(m: Monitor<T>, threads: seq<Thread<T>>, accepted: seq<T>, taken: seq<T>)

  /** What can happen next: a ready or woken thread runs its critical section, an owing thread notifies (`target`
      is the sleeper notify_one picks), a sleeper wakes spuriously, a thread that got an item pops again. */
  datatype Act = Section(thread: nat) | Notify(thread: nat, target: nat) | Wake(thread: nat) | Again(thread: nat)

  predicate IsPopSleeper<T>(threads: seq<Thread<T>>, t: nat) {
    t < |threads| && threads[t].PopAsleep?
  }

  predicate IsPushSleeper<T>(threads: seq<Thread<T>>, t: nat) {
    t < |threads| && threads[t].PushAsleep?
  }

  predicate NoSleeper<T>(threads: seq<Thread<T>>, poppers: bool) {
    forall t :: 0 <= t < |threads| ==> if poppers then !threads[t].PopAsleep? else !threads[t].PushAsleep?
  }

  /** notify_one releases some sleeper if there is one, and is lost otherwise. */
  predicate CanAct<T>(q: Queue<T>, a: Act) {
    && a.thread < |q.threads|
    && var th := q.threads[a.thread];
       match a
       case Section(_) =>
         th.PushReady? || th.PushWoken? || th.PopReady? || th.PopWoken? || th.CloseReady?
       case Notify(_, target) =>
         || (th.PushOwes? && (IsPopSleeper(q.threads, target) || NoSleeper(q.threads, true)))
         || (th.PopOwes? && (IsPushSleeper(q.threads, target) || NoSleeper(q.threads, false)))
         || th.CloseOwesBoth? || th.CloseOwesPushers?
       case Wake(_) => th.PushAsleep? || th.PopAsleep?
       case Again(_) => th.PopDone? && th.result.Some?
  }

  function Woken<T>(th: Thread<T>): Thread<T> {
    match th
    case PushAsleep(item) => PushWoken(item)
    case PopAsleep => PopWoken
    case _ => th
  }

  function WakeOne<T>(threads: seq<Thread<T>>, t: nat): (r: seq<Thread<T>>)
    ensures |r| == |threads|
  {
    if t < |threads| then threads[t := Woken(threads[t])] else threads
  }

  /** notify_all on one of the two condition variables. */
  function WakeAll<T>(threads: seq<Thread<T>>, poppers: bool): (r: seq<Thread<T>>)
    ensures |r| == |threads|
  {
    if threads == [] then []
    else
      var th := threads[|threads| - 1];
      WakeAll(threads[..|threads| - 1], poppers)
      + [if (if poppers then th.PopAsleep? else th.PushAsleep?) then Woken(th) else th]
  }

  function DoPush<T>(capacity: nat, q: Queue<T>, t: nat): Queue<T>
    requires t < |q.threads| && (q.threads[t].PushReady? || q.threads[t].PushWoken?)
  {
    var item := q.threads[t].item;
    var (step, m) := PushSection(capacity, q.m, item);
    match step
    case MustWait => q.(threads := q.threads[t := PushAsleep(item)])
    case Rejected => q.(threads := q.threads[t := PushDone(item, false)])
    case Accepted => q.(m := m, threads := q.threads[t := PushOwes(item)], accepted := q.accepted + [item])
  }

  function DoPop<T>(q: Queue<T>, t: nat): Queue<T>
    requires t < |q.threads| && (q.threads[t].PopReady? || q.threads[t].PopWoken?)
  {
    var (step, m) := PopSection(q.m);
    match step
    case Starved => q.(threads := q.threads[t := PopAsleep])
    case Drained => q.(threads := q.threads[t := PopDone(None)])
    case Took(item) => q.(m := m, threads := q.threads[t := PopOwes(item)], taken := q.taken + [item])
  }

  function DoNotify<T>(q: Queue<T>, t: nat, target: nat): Queue<T>
    requires t < |q.threads|
  {
    match q.threads[t]
    case PushOwes(item) =>
      var woken := if IsPopSleeper(q.threads, target) then WakeOne(q.threads, target) else q.threads;
      q.(threads := woken[t := PushDone(item, true)])
    case PopOwes(item) =>
      var woken := if IsPushSleeper(q.threads, target) then WakeOne(q.threads, target) else q.threads;
      q.(threads := woken[t := PopDone(Some(item))])
    case CloseOwesBoth => q.(threads := WakeAll(q.threads, true)[t := CloseOwesPushers])
    case CloseOwesPushers => q.(threads := WakeAll(q.threads, false)[t := CloseDone])
    case _ => q
  }

  function DoAct<T>(capacity: nat, q: Queue<T>, a: Act): Queue<T>
    requires CanAct(q, a)
  {
    match a
    case Section(t) =>
      if q.threads[t].CloseReady? then q.(m := q.m.(closed := true), threads := q.threads[t := CloseOwesBoth])
      else if q.threads[t].PushReady? || q.threads[t].PushWoken? then DoPush(capacity, q, t)
      else DoPop(q, t)
    case Notify(t, target) => DoNotify(q, t, target)
    case Wake(t) => q.(threads := WakeOne(q.threads, t))
    case Again(t) => q.(threads := q.threads[t := PopReady])
  }

  predicate AllReady<T>(threads: seq<Thread<T>>) {
    forall t :: 0 <= t < |threads| ==> threads[t].PushReady? || threads[t].PopReady? || threads[t].CloseReady?
  }

  /** The state after a sequence of acts by the given threads; an impossible act changes nothing. */
  function Run<T>(capacity: nat, threads: seq<Thread<T>>, acts: seq<Act>): Queue<T> {
    if acts == [] then Queue(Monitor([], false), threads, [], [])
    else
      var q := Run(capacity, threads, acts[..|acts| - 1]);
      var a := acts[|acts| - 1];
      if CanAct(q, a) then DoAct(capacity, q, a) else q
  }

  // ----- Counting threads -----

  datatype Kind = PushersAsleep | PushersWoken | PushersOwing | PoppersAsleep | PoppersWoken | PoppersOwing
                | ClosersOwingBoth | ClosersOwingPushers

  predicate Is<T>(th: Thread<T>, k: Kind) {
    match k
    case PushersAsleep => th.PushAsleep?
    case PushersWoken => th.PushWoken?
    case PushersOwing => th.PushOwes?
    case PoppersAsleep => th.PopAsleep?
    case PoppersWoken => th.PopWoken?
    case PoppersOwing => th.PopOwes?
    case ClosersOwingBoth => th.CloseOwesBoth?
    case ClosersOwingPushers => th.CloseOwesPushers?
  }

  function One(b: bool): nat {
    if b then 1 else 0
  }

  function Count<T>(threads: seq<Thread<T>>, k: Kind): nat {
    if threads == [] then 0
    else Count(threads[..|threads| - 1], k) + One(Is(threads[|threads| - 1], k))
  }

  lemma {:induction false} CountUpdate<T>(threads: seq<Thread<T>>, t: nat, th: Thread<T>, k: Kind)
    requires t < |threads|
    ensures Count(threads[t := th], k) == Count(threads, k) - One(Is(threads[t], k)) + One(Is(th, k))
  {
    var n := |threads| - 1;
    if t == n {
      assert threads[t := th][..n] == threads[..n];
    } else {
      assert threads[t := th][..n] == threads[..n][t := th];
      CountUpdate(threads[..n], t, th, k);
    }
  }

  lemma {:induction false} CountPositive<T>(threads: seq<Thread<T>>, t: nat, k: Kind)
    requires t < |threads| && Is(threads[t], k)
    ensures Count(threads, k) > 0
  {
    if t < |threads| - 1 {
      CountPositive(threads[..|threads| - 1], t, k);
    }
  }

  lemma {:induction false} CountZero<T>(threads: seq<Thread<T>>, k: Kind)
    requires forall t :: 0 <= t < |threads| ==> !Is(threads[t], k)
    ensures Count(threads, k) == 0
  {
    if threads != [] {
      CountZero(threads[..|threads| - 1], k);
    }
  }

  /** notify_all moves every sleeper of one kind to the woken ones and leaves all others alone. */
  lemma {:induction false} WakeAllCounts<T>(threads: seq<Thread<T>>, poppers: bool, k: Kind)
    ensures Count(WakeAll(threads, poppers), k) ==
      if k == (if poppers then PoppersAsleep else PushersAsleep) then 0
      else if k == (if poppers then PoppersWoken else PushersWoken)
      then Count(threads, k) + Count(threads, if poppers then PoppersAsleep else PushersAsleep)
      else Count(threads, k)
  {
    if threads != [] {
      var n := |threads| - 1;
      WakeAllCounts(threads[..n], poppers, k);
      assert WakeAll(threads, poppers)[..n] == WakeAll(threads[..n], poppers);
    }
  }

  lemma {:induction false} WakeAllKeeps<T>(threads: seq<Thread<T>>, poppers: bool, t: nat)
    requires t < |threads|
    ensures var th := threads[t];
            WakeAll(threads, poppers)[t]
            == if (if poppers then th.PopAsleep? else th.PushAsleep?) then Woken(th) else th
  {
    if t < |threads| - 1 {
      WakeAllKeeps(threads[..|threads| - 1], poppers, t);
    }
  }

  // ----- The invariant -----

  /** No lost wakeup. While the queue is open, sleeping poppers are covered: there are no more items than woken
      poppers and notifications still owed to them; dually for sleeping pushers and free slots. Once it is closed,
      anyone still asleep is covered by a notify_all still owed. */
  ghost predicate Covered<T>(capacity: nat, q: Queue<T>) {
    && (!q.m.closed && Count(q.threads, PoppersAsleep) > 0 ==>
          |q.m.items| <= Count(q.threads, PushersOwing) + Count(q.threads, PoppersWoken))
    && (!q.m.closed && Count(q.threads, PushersAsleep) > 0 ==>
          capacity - |q.m.items| <= Count(q.threads, PoppersOwing) + Count(q.threads, PushersWoken))
    && (q.m.closed && Count(q.threads, PoppersAsleep) > 0 ==> Count(q.threads, ClosersOwingBoth) > 0)
    && (q.m.closed && Count(q.threads, PushersAsleep) > 0 ==>
          Count(q.threads, ClosersOwingBoth) + Count(q.threads, ClosersOwingPushers) > 0)
  }

  /** First in, first out, and never too many. */
  ghost predicate Fifo<T>(capacity: nat, q: Queue<T>) {
    && q.accepted == q.taken + q.m.items
    && (capacity != 0 ==> |q.m.items| <= capacity)
    && (capacity == 0 ==> Count(q.threads, PushersAsleep) == 0)
  }

  /** A refused push, an end-of-stream answer and a finished close are only ever seen on a closed queue, an
      end-of-stream answer on an empty one. */
  ghost predicate EndsFit<T>(q: Queue<T>) {
    forall t :: 0 <= t < |q.threads| ==>
      && (q.threads[t] == PopDone(None) ==> q.m.closed && q.m.items == [])
      && (q.threads[t].CloseOwesBoth? || q.threads[t].CloseOwesPushers? || q.threads[t].CloseDone? ==> q.m.closed)
      && (q.threads[t].PushDone? && !q.threads[t].accepted ==> q.m.closed)
  }

  ghost predicate QueueInv<T>(capacity: nat, q: Queue<T>) {
    Covered(capacity, q) && Fifo(capacity, q) && EndsFit(q)
  }

  lemma PushKeeps<T>(capacity: nat, q: Queue<T>, t: nat)
    requires QueueInv(capacity, q)
    requires t < |q.threads| && (q.threads[t].PushReady? || q.threads[t].PushWoken?)
    ensures QueueInv(capacity, DoPush(capacity, q, t))
  {
    hide Count;
    var q' := DoPush(capacity, q, t);
    CountAll(q.threads, t, q'.threads[t]);
    assert q'.threads == q.threads[t := q'.threads[t]];
  }

  lemma PopKeeps<T>(capacity: nat, q: Queue<T>, t: nat)
    requires QueueInv(capacity, q)
    requires t < |q.threads| && (q.threads[t].PopReady? || q.threads[t].PopWoken?)
    ensures QueueInv(capacity, DoPop(q, t))
  {
    hide Count;
    var q' := DoPop(q, t);
    CountAll(q.threads, t, q'.threads[t]);
    assert q'.threads == q.threads[t := q'.threads[t]];
  }

  /** How one thread's change moves all the counts. */
  lemma CountAll<T>(threads: seq<Thread<T>>, t: nat, th: Thread<T>)
    requires t < |threads|
    ensures forall k :: Count(threads[t := th], k) == Count(threads, k) - One(Is(threads[t], k)) + One(Is(th, k))
  {
    forall k
      ensures Count(threads[t := th], k) == Count(threads, k) - One(Is(threads[t], k)) + One(Is(th, k))
    {
      CountUpdate(threads, t, th, k);
    }
  }

  lemma WakeKeeps<T>(capacity: nat, q: Queue<T>, t: nat)
    requires QueueInv(capacity, q)
    requires t < |q.threads| && (q.threads[t].PushAsleep? || q.threads[t].PopAsleep?)
    ensures QueueInv(capacity, q.(threads := WakeOne(q.threads, t)))
  {
    hide Count;
    CountAll(q.threads, t, Woken(q.threads[t]));
  }

  /** notify_one settles one owed notification and, if anybody sleeps, turns one sleeper into a woken thread. */
  lemma NotifyOneCounts<T>(q: Queue<T>, t: nat, target: nat, k: Kind)
    requires CanAct(q, Notify(t, target)) && (q.threads[t].PushOwes? || q.threads[t].PopOwes?)
    ensures var poppers := q.threads[t].PushOwes?;
            var asleep := Count(q.threads, if poppers then PoppersAsleep else PushersAsleep);
            Count(DoNotify(q, t, target).threads, k) == Count(q.threads, k)
              - One(k == if poppers then PushersOwing else PoppersOwing)
              - One(asleep > 0 && k == if poppers then PoppersAsleep else PushersAsleep)
              + One(asleep > 0 && k == if poppers then PoppersWoken else PushersWoken)
  {
    hide Count;
    var poppers := q.threads[t].PushOwes?;
    var sleeping := if poppers then PoppersAsleep else PushersAsleep;
    var done := if poppers then PushDone(q.threads[t].item, true) else PopDone(Some(q.threads[t].item));
    if (if poppers then IsPopSleeper(q.threads, target) else IsPushSleeper(q.threads, target)) {
      CountPositive(q.threads, target, sleeping);
      CountUpdate(q.threads, target, Woken(q.threads[target]), k);
      CountUpdate(WakeOne(q.threads, target), t, done, k);
    } else {
      CountZero(q.threads, sleeping);
      CountUpdate(q.threads, t, done, k);
    }
  }

  lemma NotifyPoppersCounts<T>(q: Queue<T>, t: nat, target: nat, k: Kind)
    requires t < |q.threads| && q.threads[t].CloseOwesBoth?
    ensures Count(DoNotify(q, t, target).threads, k) ==
      if k == PoppersAsleep then 0
      else if k == PoppersWoken then Count(q.threads, k) + Count(q.threads, PoppersAsleep)
      else if k == ClosersOwingBoth then Count(q.threads, k) - 1
      else if k == ClosersOwingPushers then Count(q.threads, k) + 1
      else Count(q.threads, k)
  {
    hide Count, WakeAll;
    WakeAllCounts(q.threads, true, k);
    WakeAllKeeps(q.threads, true, t);
    CountUpdate(WakeAll(q.threads, true), t, CloseOwesPushers, k);
  }

  lemma NotifyPushersCounts<T>(q: Queue<T>, t: nat, target: nat, k: Kind)
    requires t < |q.threads| && q.threads[t].CloseOwesPushers?
    ensures Count(DoNotify(q, t, target).threads, k) ==
      if k == PushersAsleep then 0
      else if k == PushersWoken then Count(q.threads, k) + Count(q.threads, PushersAsleep)
      else if k == ClosersOwingPushers then Count(q.threads, k) - 1
      else Count(q.threads, k)
  {
    hide Count, WakeAll;
    WakeAllCounts(q.threads, false, k);
    WakeAllKeeps(q.threads, false, t);
    CountUpdate(WakeAll(q.threads, false), t, CloseDone, k);
  }

  lemma NotifyKeepsCovered<T>(capacity: nat, q: Queue<T>, t: nat, target: nat)
    requires Covered(capacity, q) && Fifo(capacity, q) && CanAct(q, Notify(t, target))
    ensures Covered(capacity, DoNotify(q, t, target)) && Fifo(capacity, DoNotify(q, t, target))
  {
    hide Count, WakeAll, Is;
    var owes := q.threads[t];
    if owes.PushOwes? || owes.PopOwes? {
      forall k {
        NotifyOneCounts(q, t, target, k);
      }
    } else if owes.CloseOwesBoth? {
      forall k {
        NotifyPoppersCounts(q, t, target, k);
      }
    } else {
      forall k {
        NotifyPushersCounts(q, t, target, k);
      }
    }
  }

  /** Notifications touch the states of sleepers and of the notifier only. */
  lemma NotifyTouches<T>(q: Queue<T>, t: nat, target: nat, u: nat)
    requires CanAct(q, Notify(t, target)) && u < |q.threads|
    ensures |DoNotify(q, t, target).threads| == |q.threads| && DoNotify(q, t, target).m == q.m
    ensures var th, th' := q.threads[u], DoNotify(q, t, target).threads[u];
            if u == t then
              th' == match th
                     case PushOwes(item) => PushDone(item, true)
                     case PopOwes(item) => PopDone(Some(item))
                     case CloseOwesBoth => CloseOwesPushers
                     case _ => CloseDone
            else th' == th || ((th.PushAsleep? || th.PopAsleep?) && th' == Woken(th))
  {
    WakeAllKeeps(q.threads, true, u);
    WakeAllKeeps(q.threads, false, u);
  }

  lemma NotifyKeeps<T>(capacity: nat, q: Queue<T>, t: nat, target: nat)
    requires QueueInv(capacity, q) && CanAct(q, Notify(t, target))
    ensures QueueInv(capacity, DoNotify(q, t, target))
  {
    NotifyKeepsCovered(capacity, q, t, target);
    var q' := DoNotify(q, t, target);
    NotifyTouches(q, t, target, t);
    forall u | 0 <= u < |q'.threads|
      ensures q'.threads[u] == PopDone(None) ==> q'.m.closed && q'.m.items == []
      ensures q'.threads[u].CloseOwesBoth? || q'.threads[u].CloseOwesPushers? || q'.threads[u].CloseDone?
              ==> q'.m.closed
      ensures q'.threads[u].PushDone? && !q'.threads[u].accepted ==> q'.m.closed
    {
      NotifyTouches(q, t, target, u);
    }
  }

  lemma CloseKeeps<T>(capacity: nat, q: Queue<T>, t: nat)
    requires QueueInv(capacity, q) && t < |q.threads| && q.threads[t].CloseReady?
    ensures QueueInv(capacity, q.(m := q.m.(closed := true), threads := q.threads[t := CloseOwesBoth]))
  {
    hide Count;
    CountAll(q.threads, t, CloseOwesBoth);
    CountPositive(q.threads[t := CloseOwesBoth], t, ClosersOwingBoth);
  }

  lemma AgainKeeps<T>(capacity: nat, q: Queue<T>, t: nat)
    requires QueueInv(capacity, q) && t < |q.threads| && q.threads[t].PopDone?
    ensures QueueInv(capacity, q.(threads := q.threads[t := PopReady]))
  {
    hide Count;
    CountAll(q.threads, t, PopReady);
  }

  lemma ActKeeps<T>(capacity: nat, q: Queue<T>, a: Act)
    requires QueueInv(capacity, q) && CanAct(q, a)
    ensures QueueInv(capacity, DoAct(capacity, q, a))
  {
    hide QueueInv, DoPush, DoPop, DoNotify, WakeOne;
    var th := q.threads[a.thread];
    match a {
      case Section(t) =>
        if th.CloseReady? {
          CloseKeeps(capacity, q, t);
        } else if th.PushReady? || th.PushWoken? {
          PushKeeps(capacity, q, t);
        } else {
          PopKeeps(capacity, q, t);
        }
      case Notify(t, target) =>
        NotifyKeeps(capacity, q, t, target);
      case Wake(t) => WakeKeeps(capacity, q, t);
      case Again(t) => AgainKeeps(capacity, q, t);
    }
  }

  /** No lost wakeup, first in first out, bounded size and honest end-of-stream, in every reachable state of any
      number of pushers, poppers and closers. */
  lemma {:induction false} AlwaysQueueInv<T>(capacity: nat, threads: seq<Thread<T>>, acts: seq<Act>)
    requires AllReady(threads)
    ensures QueueInv(capacity, Run(capacity, threads, acts))
  {
    if acts == [] {
      forall k
        ensures Count(threads, k) == 0
      {
        CountZero(threads, k);
      }
    } else {
      var q := Run(capacity, threads, acts[..|acts| - 1]);
      AlwaysQueueInv(capacity, threads, acts[..|acts| - 1]);
      if CanAct(q, acts[|acts| - 1]) {
        ActKeeps(capacity, q, acts[|acts| - 1]);
      }
    }
  }

  lemma ActGrows<T>(capacity: nat, q: Queue<T>, a: Act)
    requires CanAct(q, a)
    ensures var q' := DoAct(capacity, q, a);
            && q.accepted <= q'.accepted && q.taken <= q'.taken
            && (q.m.closed ==> q'.m.closed && q'.accepted == q.accepted)
  {
    hide WakeAll;
  }

  /** The guarantees a client relies on: popped items followed by queued ones are the accepted pushes in order;
      size stays within a non-zero capacity; no item got in after the close, and a push is refused only by a closed
      queue; an empty-handed pop means closed and drained. */
  lemma QueueRefinement<T>(capacity: nat, threads: seq<Thread<T>>, acts: seq<Act>, a: Act)
    requires AllReady(threads)
    ensures var q := Run(capacity, threads, acts);
            && q.taken + q.m.items == q.accepted
            && (capacity != 0 ==> |q.m.items| <= capacity)
            && (PopDone(None) in q.threads ==> q.m.closed && q.m.items == [])
            && (forall th :: th in q.threads && th.PushDone? && !th.accepted ==> q.m.closed)
            && (CanAct(q, a) ==>
                  var q' := DoAct(capacity, q, a);
                  && q.accepted <= q'.accepted && q.taken <= q'.taken
                  && (q.m.closed ==> q'.m.closed && q'.accepted == q.accepted))
  {
    hide Run, Covered, CanAct, DoAct, Count;
    AlwaysQueueInv(capacity, threads, acts);
    var q := Run(capacity, threads, acts);
    if CanAct(q, a) {
      ActGrows(capacity, q, a);
    }
  }

  /** Nobody can move except by waking spuriously: every thread has returned or sleeps. */
  ghost predicate AtRest<T>(q: Queue<T>) {
    forall t :: 0 <= t < |q.threads| ==>
      q.threads[t].PushDone? || q.threads[t].PopDone? || q.threads[t].CloseDone?
      || q.threads[t].PushAsleep? || q.threads[t].PopAsleep?
  }

  /** Nobody sleeps on a closed queue, poppers sleep only on an empty one, pushers only on a full bounded one, and
      never both. */
  ghost predicate Rested<T>(capacity: nat, q: Queue<T>) {
    && ((exists t :: IsPopSleeper(q.threads, t)) ==> !q.m.closed && q.m.items == [])
    && ((exists t :: IsPushSleeper(q.threads, t)) ==> !q.m.closed && capacity != 0 && |q.m.items| == capacity)
    && !((exists t :: IsPopSleeper(q.threads, t)) && (exists t :: IsPushSleeper(q.threads, t)))
  }

  /** Threads never all sleep while one of them could proceed. */
  lemma NobodySleepsInVain<T>(capacity: nat, q: Queue<T>)
    requires QueueInv(capacity, q) && AtRest(q)
    ensures Rested(capacity, q)
  {
    forall k | k != PoppersAsleep && k != PushersAsleep
      ensures Count(q.threads, k) == 0
    {
      CountZero(q.threads, k);
    }
    if t :| IsPopSleeper(q.threads, t) {
      CountPositive(q.threads, t, PoppersAsleep);
    }
    if t :| IsPushSleeper(q.threads, t) {
      CountPositive(q.threads, t, PushersAsleep);
    }
  }

  /** The same for every run. */
  lemma NoLostWakeup<T>(capacity: nat, threads: seq<Thread<T>>, acts: seq<Act>)
    requires AllReady(threads)
    ensures Covered(capacity, Run(capacity, threads, acts))
    ensures AtRest(Run(capacity, threads, acts)) ==>
      Rested(capacity, Run(capacity, threads, acts))
  {
    AlwaysQueueInv(capacity, threads, acts);
    if AtRest(Run(capacity, threads, acts)) {
      NobodySleepsInVain(capacity, Run(capacity, threads, acts));
    }
  }
}
