/** Every run ends, no run gets stuck, and counters stay small. */
module Progress {
  import opened Common
  import opened Protocol
  import opened ProtocolInvariant
  import opened Books

  /** A bound on the steps still to be made by all calls together. */
  function WorkLeft(cfg: Config, s: State): int
    requires Sized(cfg, s)
  {
    SumOver(cfg, s.calls, Remaining)
  }

  lemma StepsLeftDrop(env: Env, inv: Invocation, me: nat, g: Shared, c: Call, b: bool)
    requires CanMove(env, inv, g, c)
    ensures StepsLeft(StepOf(env, inv, me, g, c, b).1) < StepsLeft(c)
  {
    hide Gate, AfterDebit, AfterCredit, TxnOf, EventOf;
  }

  /** Each step of any call uses up work. */
  lemma WorkDrops(cfg: Config, s: State, i: nat, b: bool)
    requires Sized(cfg, s) && Enabled(cfg, s, i)
    ensures 0 <= WorkLeft(cfg, Next(cfg, s, i, b)) < WorkLeft(cfg, s)
  {
    var s' := Next(cfg, s, i, b);
    StepsLeftDrop(cfg.env, cfg.calls[i], i, s.g, s.calls[i], b);
    SumUpdate(cfg, s.calls, i, s'.calls[i], Remaining);
    SumDominates(cfg, s'.calls, Remaining, 0);
  }

  /** The picks of a schedule that made something move. */
  function MovesMade(cfg: Config, sched: seq<Pick>): nat {
    if sched == [] then 0
    else
      var before := sched[..|sched| - 1];
      MovesMade(cfg, before) + if Enabled(cfg, Exec(cfg, before), sched[|sched| - 1].call) then 1 else 0
  }

  lemma {:induction false} InitialWork(cfg: Config, calls: seq<Call>)
    requires |calls| <= |cfg.calls| && forall i :: 0 <= i < |calls| ==> calls[i] == FRESH
    ensures SumOver(cfg, calls, Remaining) == 20 * |calls|
  {
    if calls != [] {
      InitialWork(cfg, calls[..|calls| - 1]);
    }
  }

  /** Termination: whatever the schedule, the moves made so far and the work left never exceed twenty steps a call. */
  lemma {:induction false} RunsAreBounded(cfg: Config, sched: seq<Pick>)
    ensures MovesMade(cfg, sched) + WorkLeft(cfg, Exec(cfg, sched)) <= 20 * |cfg.calls|
    ensures MovesMade(cfg, sched) <= 20 * |cfg.calls|
  {
    if sched == [] {
      InitialWork(cfg, Init(cfg).calls);
    } else {
      var before := Exec(cfg, sched[..|sched| - 1]);
      var p := sched[|sched| - 1];
      RunsAreBounded(cfg, sched[..|sched| - 1]);
      if Enabled(cfg, before, p.call) {
        WorkDrops(cfg, before, p.call, p.seqFirst);
      }
    }
    SumDominates(cfg, Exec(cfg, sched).calls, Remaining, 0);
  }

  /** A call is blocked only by somebody holding its payer's lock. */
  lemma OnlyLocksBlock(cfg: Config, s: State, i: nat)
    requires Sized(cfg, s) && Shapes(cfg, s) && i < |s.calls|
    ensures Enabled(cfg, s, i) <==>
      !s.calls[i].pc.Done? &&
      !(s.calls[i].pc.Waiting? && LockKey(cfg.calls[i].payer) in s.g.locks
        && s.g.locks[LockKey(cfg.calls[i].payer)].Some?)
  {
    assert CallShape(cfg.env, cfg.calls[i], s.calls[i]);
  }

  /** A call holds at most one account lock, its own payer's, and while it waits it holds none. */
  ghost predicate OneLockEach(cfg: Config, s: State)
    requires Sized(cfg, s)
  {
    && (forall i, k :: 0 <= i < |s.calls| && HeldBy(s.g, k, i) ==> k == LockKey(cfg.calls[i].payer))
    && (forall i, k :: 0 <= i < |s.calls| && s.calls[i].pc.Waiting? ==> !HeldBy(s.g, k, i))
  }

  /** Somebody can move: if call `i` is not done, then it can move or the holder of the lock it waits for can. */
  ghost predicate NotStuck(cfg: Config, s: State)
    requires Sized(cfg, s)
  {
    forall i :: 0 <= i < |s.calls| && !s.calls[i].pc.Done? ==>
      || Enabled(cfg, s, i)
      || (exists j :: 0 <= j < |s.calls| && HeldBy(s.g, LockKey(cfg.calls[i].payer), j) && Enabled(cfg, s, j))
  }

  lemma NotStuckFrom(cfg: Config, s: State)
    requires Sized(cfg, s) && Shapes(cfg, s) && Locks(cfg, s)
    ensures OneLockEach(cfg, s) && NotStuck(cfg, s)
  {
    forall i | 0 <= i < |s.calls| && !s.calls[i].pc.Done? && !Enabled(cfg, s, i)
      ensures exists j :: 0 <= j < |s.calls| && HeldBy(s.g, LockKey(cfg.calls[i].payer), j) && Enabled(cfg, s, j)
    {
      OnlyLocksBlock(cfg, s, i);
      var j := s.g.locks[LockKey(cfg.calls[i].payer)].value;
      OnlyLocksBlock(cfg, s, j);
      assert HeldBy(s.g, LockKey(cfg.calls[i].payer), j) && Enabled(cfg, s, j);
    }
  }

  /** Deadlock freedom, whatever pays whom, A to B against B to A included. */
  lemma NeverStuck(cfg: Config, s: State)
    requires Reachable(cfg, s)
    ensures OneLockEach(cfg, s) && NotStuck(cfg, s)
  {
    var sched :| s == Exec(cfg, sched);
    AlwaysCoherent(cfg, sched);
    NotStuckFrom(cfg, s);
  }

  /** So a run that can go no further is one in which every call has returned. */
  lemma RunsEndFinished(cfg: Config, s: State)
    requires Reachable(cfg, s) && forall i :: 0 <= i < |cfg.calls| ==> !Enabled(cfg, s, i)
    ensures forall i :: 0 <= i < |cfg.calls| ==> s.calls[i].pc.Done?
  {
    hide Exec, CanMove;
    NeverStuck(cfg, s);
  }

  /** The counters never outrun the steps that advance them, so runs of fewer than 2^58 calls stay far from the
      wrap-around of the source's 64-bit counters. */
  lemma {:induction false} CountersStaySmall(cfg: Config, sched: seq<Pick>)
    ensures var g := Exec(cfg, sched).g;
            && g.nextTxn <= 1 + MovesMade(cfg, sched)
            && g.nextEntry <= 1 + MovesMade(cfg, sched)
            && g.nextSeq <= 1 + MovesMade(cfg, sched)
            && (|cfg.calls| < 0x0400_0000_0000_0000 ==>
                  g.nextTxn < UINT64_COUNT && g.nextEntry < UINT64_COUNT && g.nextSeq < INT64_MAX)
  {
    RunsAreBounded(cfg, sched);
    if sched != [] {
      var before := Exec(cfg, sched[..|sched| - 1]);
      var p := sched[|sched| - 1];
      CountersStaySmall(cfg, sched[..|sched| - 1]);
      if Enabled(cfg, before, p.call) {
        CountersStep(cfg.env, cfg.calls[p.call], p.call, before.g, before.calls[p.call], p.seqFirst);
      }
    }
  }

  lemma CountersStep(env: Env, inv: Invocation, me: nat, g: Shared, c: Call, b: bool)
    requires CanMove(env, inv, g, c)
    ensures var g' := StepOf(env, inv, me, g, c, b).0;
            g'.nextTxn <= g.nextTxn + 1 && g'.nextEntry <= g.nextEntry + 1 && g'.nextSeq <= g.nextSeq + 1
  {
    hide StepOf, TxnOf;
    if c.pc.Credited? {
      CreditedStep(env, inv, me, g, c, b);
    } else {
      NumbersStay(env, inv, me, g, c, b);
    }
  }
}
