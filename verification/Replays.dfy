/** Duplicates under interference: exactly when a call that lost its key is answered with the winner's transaction,
    and what a caller who retries after the fact can rely on. */
module Replays {
  import opened Common
  import opened Domain
  import opened Validation
  import opened Protocol
  import opened ProtocolInvariant
  import opened Books
  import opened Linearizability
  import opened Alone
  import Progress

  // ----- Exactly when -----

  /** What the store tells a call that looks the winner of its key up. */
  function LookupAnswer(cfg: Config, s: State, w: nat): Outcome
    requires Sized(cfg, s) && w < |s.calls|
  {
    if Stored(s.calls[w].pc) then Replayed(TxnOf(cfg.calls[w], s.calls[w])) else Duplicate
  }

  lemma OwnerFound(cfg: Config, s: State, i: nat)
    requires Coherent(cfg, s) && i < |s.calls| && s.calls[i].pc.Looking?
    ensures Sized(cfg, s) && cfg.calls[i].key in s.h.owner
    ensures var w := s.h.owner[cfg.calls[i].key];
            w < |s.calls| && Winner(s.calls[w].pc) && s.calls[i].pc.existing == TxnId(s.calls[w].num)
  {
    assert LookupShape(cfg.calls[i], s.g, s.calls[i].pc);
  }

  /** The repository has a winner's transaction exactly when the winner has saved it. */
  lemma StoredIffSaved(cfg: Config, s: State, w: nat)
    requires Coherent(cfg, s) && w < |s.calls| && Winner(s.calls[w].pc)
    ensures TxnId(s.calls[w].num) in s.g.txns <==> Stored(s.calls[w].pc)
    ensures Stored(s.calls[w].pc) ==> s.g.txns[TxnId(s.calls[w].num)] == TxnOf(cfg.calls[w], s.calls[w])
  {
    assert CallShape(cfg.env, cfg.calls[w], s.calls[w]);
    assert MintedBy(s, TxnId(s.calls[w].num), w);
    assert Stored(s.calls[w].pc) ==> Holds(s.g, TxnId(s.calls[w].num), TxnOf(cfg.calls[w], s.calls[w]));
  }

  lemma LookupDecidesFrom(cfg: Config, s: State, i: nat, b: bool)
    requires Coherent(cfg, s) && i < |s.calls| && s.calls[i].pc.Looking?
    ensures Enabled(cfg, s, i)
    ensures cfg.calls[i].key in s.h.owner && s.h.owner[cfg.calls[i].key] < |s.calls|
    ensures Next(cfg, s, i, b).calls[i].pc == Done(LookupAnswer(cfg, s, s.h.owner[cfg.calls[i].key]))
  {
    hide Coherent, Gate, AfterDebit, AfterCredit, MintStep, TxnOf, Stored;
    OwnerFound(cfg, s, i);
    StoredIffSaved(cfg, s, s.h.owner[cfg.calls[i].key]);
  }

  /** A call that lost its key is replayed if and only if, at the moment it looks, the winner has saved its
      transaction; otherwise it gets the duplicate-request error, whatever becomes of the winner later. */
  lemma LookupDecides(cfg: Config, s: State, i: nat, b: bool)
    requires Reachable(cfg, s) && i < |s.calls| && s.calls[i].pc.Looking?
    ensures Enabled(cfg, s, i)
    ensures cfg.calls[i].key in s.h.owner && s.h.owner[cfg.calls[i].key] < |s.calls|
    ensures Next(cfg, s, i, b).calls[i].pc == Done(LookupAnswer(cfg, s, s.h.owner[cfg.calls[i].key]))
  {
    var sched :| s == Exec(cfg, sched);
    AlwaysCoherent(cfg, sched);
    LookupDecidesFrom(cfg, s, i, b);
  }

  // ----- Retries that begin after the first call has saved -----

  /** Call `w` has saved the transaction, and call `i` is on its way to being answered with it, or has been. */
  ghost predicate OnlyReplay(cfg: Config, s: State, w: nat, i: nat, txn: Transaction)
    requires Sized(cfg, s) && w < |s.calls| && i < |s.calls|
  {
    && Stored(s.calls[w].pc) && TxnOf(cfg.calls[w], s.calls[w]) == txn
    && !Winner(s.calls[i].pc)
    && (s.calls[i].pc.Done? ==> s.calls[i].pc.out == Replayed(txn))
  }

  lemma SaverStays(env: Env, inv: Invocation, me: nat, g: Shared, c: Call, b: bool)
    requires CanMove(env, inv, g, c) && PathShape(env, inv, c) && Stored(c.pc)
    ensures var c' := StepOf(env, inv, me, g, c, b).1;
            Stored(c'.pc) && TxnOf(inv, c') == TxnOf(inv, c)
  {
  }

  /** A call whose key is taken goes on to look its winner up. */
  lemma LoserLooks(env: Env, inv: Invocation, me: nat, g: Shared, c: Call, b: bool)
    requires CanMove(env, inv, g, c) && !Winner(c.pc) && inv.key in g.keys && !c.pc.Looking?
    ensures var c' := StepOf(env, inv, me, g, c, b).1; !Winner(c'.pc) && !c'.pc.Done?
  {
  }

  lemma WinnerOwns(cfg: Config, s: State, w: nat)
    requires Coherent(cfg, s) && w < |s.calls| && Stored(s.calls[w].pc)
    ensures PathShape(cfg.env, cfg.calls[w], s.calls[w])
    ensures cfg.calls[w].key in s.g.keys && OwnedBy(s, cfg.calls[w].key, w)
  {
    hide Ids, Locks, Repository, LookupShape, TrailFits, MintShape, Gate;
    assert CallShape(cfg.env, cfg.calls[w], s.calls[w]);
    assert OwnedBy(s, cfg.calls[w].key, w);
  }

  lemma OnlyReplayKept(cfg: Config, s: State, w: nat, i: nat, txn: Transaction, j: nat, b: bool)
    requires Coherent(cfg, s) && Enabled(cfg, s, j)
    requires w < |s.calls| && i < |s.calls| && w != i && cfg.calls[w].key == cfg.calls[i].key
    requires OnlyReplay(cfg, s, w, i, txn)
    ensures OnlyReplay(cfg, Next(cfg, s, j, b), w, i, txn)
  {
    hide StepOf, Coherent, PathShape;
    WinnerOwns(cfg, s, w);
    if j == w {
      SaverStays(cfg.env, cfg.calls[w], w, s.g, s.calls[w], b);
    } else if j == i && s.calls[i].pc.Looking? {
      LookupDecidesFrom(cfg, s, i, b);
    } else if j == i {
      LoserLooks(cfg.env, cfg.calls[i], i, s.g, s.calls[i], b);
    }
  }

  lemma {:induction false} OnlyReplayLater(cfg: Config, early: seq<Pick>, late: seq<Pick>, w: nat, i: nat,
                                           txn: Transaction)
    requires w < |cfg.calls| && i < |cfg.calls| && w != i && cfg.calls[w].key == cfg.calls[i].key
    requires OnlyReplay(cfg, Exec(cfg, early), w, i, txn)
    ensures OnlyReplay(cfg, Exec(cfg, early + late), w, i, txn)
  {
    hide OnlyReplay, Coherent, CanMove, StepOf, Exec, TxnOf;
    if late == [] {
      assert early + late == early;
    } else {
      var p := late[|late| - 1];
      var before := Exec(cfg, early + late[..|late| - 1]);
      ExecOn(cfg, early, late);
      OnlyReplayLater(cfg, early, late[..|late| - 1], w, i, txn);
      if Enabled(cfg, before, p.call) {
        AlwaysCoherent(cfg, early + late[..|late| - 1]);
        OnlyReplayKept(cfg, before, w, i, txn, p.call, p.seqFirst);
      }
    }
  }

  /** Idempotency for retries: once a call has saved its transaction, any call with the same key that has not begun
      yet can, however the calls interleave from there, only be answered with that very transaction. It never wins
      the key and never gets the duplicate-request error. */
  lemma LateRetryReplays(cfg: Config, early: seq<Pick>, late: seq<Pick>, w: nat, i: nat)
    requires w < |cfg.calls| && i < |cfg.calls| && cfg.calls[w].key == cfg.calls[i].key
    requires Stored(Exec(cfg, early).calls[w].pc) && Exec(cfg, early).calls[i].pc.Start?
    ensures var c := Exec(cfg, early + late).calls[i];
            && !Winner(c.pc)
            && (c.pc.Done? ==> c.pc.out == Replayed(TxnOf(cfg.calls[w], Exec(cfg, early).calls[w])))
  {
    OnlyReplayLater(cfg, early, late, w, i, TxnOf(cfg.calls[w], Exec(cfg, early).calls[w]));
  }

  // ----- A concurrent duplicate may get the error -----

  lemma OneMore(cfg: Config, sched: seq<Pick>, i: nat, b: bool)
    requires Enabled(cfg, Exec(cfg, sched), i)
    ensures Exec(cfg, sched + [Pick(i, b)]) == Next(cfg, Exec(cfg, sched), i, b)
  {
    hide StepOf, CanMove;
    assert (sched + [Pick(i, b)])[..|sched|] == sched;
  }

  /** After any schedule one call can run on alone. */
  lemma {:induction false} LetRun(cfg: Config, early: seq<Pick>, i: nat) returns (late: seq<Pick>)
    requires i < |cfg.calls|
    ensures var s, s' := Exec(cfg, early), Exec(cfg, early + late);
            && (s'.g, s'.calls[i]) == RunFrom(cfg.env, cfg.calls[i], i, s.g, s.calls[i])
            && s'.calls == s.calls[i := s'.calls[i]]
    decreases StepsLeft(Exec(cfg, early).calls[i])
  {
    hide StepOf, Exec;
    var s := Exec(cfg, early);
    if Enabled(cfg, s, i) {
      var step := [Pick(i, false)];
      Progress.StepsLeftDrop(cfg.env, cfg.calls[i], i, s.g, s.calls[i], false);
      OneMore(cfg, early, i, false);
      var more := LetRun(cfg, early + step, i);
      late := step + more;
      assert early + late == early + step + more;
    } else {
      late := [];
      assert early + late == early;
    }
  }

  /** Losing to a winner that has not saved. */
  lemma EarlyRetryRuns(env: Env, inv: Invocation, me: nat, g: Shared, num: nat)
    requires inv.key in g.keys && g.keys[inv.key] !in g.txns
    ensures RunFrom(env, inv, me, g, At(Minted, num, [])) == (g, At(Done(Duplicate), num, []))
  {
    OneStep(env, inv, me, g, At(Minted, num, []), g, At(Beaten, num, []));
    OneStep(env, inv, me, g, At(Beaten, num, []), g, At(Looking(g.keys[inv.key]), num, []));
    OneStep(env, inv, me, g, At(Looking(g.keys[inv.key]), num, []), g, At(Done(Duplicate), num, []));
    Arrived(env, inv, me, g, At(Done(Duplicate), num, []));
  }

  lemma Begin(cfg: Config)
    ensures Exec(cfg, []) == Init(cfg)
  {
  }

  /** Both calls have minted, and the first has claimed the key. */
  lemma BothBegun(env: Env, first: Invocation, second: Invocation) returns (sched: seq<Pick>)
    requires first.key == second.key
    ensures var s := Exec(Config(env, [first, second]), sched);
            && s.g == AfterClaim(first, InitShared(env).(nextTxn := 2))
            && s.calls == [At(Claimed, 2, []), At(Minted, 1, [])]
  {
    hide Gate, AfterDebit, AfterCredit, EventOf, TxnOf, Record, MintStep, DebitEntry, CreditEntry, Exec;
    var cfg := Config(env, [first, second]);
    Begin(cfg);
    assert Init(cfg).calls == [FRESH, FRESH];
    var one, two := [Pick(1, false)], [Pick(1, false), Pick(0, false)];
    OneMore(cfg, [], 1, false);
    assert [] + one == one && one + [Pick(0, false)] == two;
    OneMore(cfg, one, 0, false);
    OneMore(cfg, two, 0, false);
    sched := two + [Pick(0, false)];
  }

  /** Two calls with one key, of which the first can be paid: there is an interleaving that pays the first and
      answers the second with the duplicate-request error. */
  lemma ConcurrentDuplicateFails(env: Env, first: Invocation, second: Invocation) returns (s: State)
    requires first.key == second.key && AtomicPay(env, OpeningBalances(env), first).1.Paid?
    ensures var cfg := Config(env, [first, second]);
            && Reachable(cfg, s)
            && s.calls[0].pc == Done(Paid) && s.calls[1].pc == Done(Duplicate)
  {
    hide RunFrom, AtomicPay, Exec;
    var cfg := Config(env, [first, second]);
    var g := InitShared(env).(nextTxn := 2);
    var begun := BothBegun(env, first, second);
    var loses := LetRun(cfg, begun, 1);
    EarlyRetryRuns(env, second, 1, Exec(cfg, begun).g, 1);
    var wins := LetRun(cfg, begun + loses, 0);
    ClaimRuns(env, first, 0, g);
    AloneIsAtomic(env, first, 0, g);
    s := Exec(cfg, begun + loses + wins);
  }

  /** A concrete input. */
  lemma ConcurrentDuplicateExample() returns (s: State)
    ensures var cfg := Config(Env(map["u" := Money(1000, INR), "m" := Money(0, INR)], [BasicCheck]),
                              [Invocation("k", "u", "m", Money(100, INR), Upi, 0),
                               Invocation("k", "u", "m", Money(100, INR), Upi, 0)]);
            && Reachable(cfg, s)
            && s.calls[0].pc == Done(Paid) && s.calls[1].pc == Done(Duplicate)
  {
    hide Reachable, Gate;
    var env := Env(map["u" := Money(1000, INR), "m" := Money(0, INR)], [BasicCheck]);
    var inv := Invocation("k", "u", "m", Money(100, INR), Upi, 0);
    BasicGate(env, inv);
    s := ConcurrentDuplicateFails(env, inv, inv);
  }

  // ----- The guarantee a retry begins with -----

  /** Some call with the key has saved its transaction. */
  ghost predicate KeySaved(cfg: Config, s: State, key: string)
    requires Sized(cfg, s)
  {
    exists w :: 0 <= w < |s.calls| && cfg.calls[w].key == key && Stored(s.calls[w].pc)
  }

  /** The call has not won its key and, if it is done, was answered with a stored transaction. */
  predicate Replaying(c: Call) {
    !Winner(c.pc) && (c.pc.Done? ==> c.pc.out.Replayed?)
  }

  lemma BeginsFresh(env: Env, inv: Invocation, c: Call)
    requires CallShape(env, inv, c) && c.pc.Start?
    ensures c == FRESH
  {
  }

  /** A call whose key is claimed but not saved can run straight into the duplicate-request error. */
  lemma UnsavedRetryFails(cfg: Config, early: seq<Pick>, i: nat) returns (late: seq<Pick>)
    requires i < |cfg.calls| && Exec(cfg, early).calls[i].pc.Start?
    requires cfg.calls[i].key in Exec(cfg, early).g.keys && !KeySaved(cfg, Exec(cfg, early), cfg.calls[i].key)
    ensures Exec(cfg, early + late).calls[i].pc == Done(Duplicate)
  {
    hide Exec, RunFrom;
    var s := Exec(cfg, early);
    AlwaysCoherent(cfg, early);
    UnsavedNotStored(cfg, s, cfg.calls[i].key);
    assert CallShape(cfg.env, cfg.calls[i], s.calls[i]);
    BeginsFresh(cfg.env, cfg.calls[i], s.calls[i]);
    RetryRuns(cfg.env, cfg.calls[i], i, s.g);
    late := LetRun(cfg, early, i);
  }

  lemma UnsavedNotStored(cfg: Config, s: State, key: string)
    requires Coherent(cfg, s) && key in s.g.keys && !KeySaved(cfg, s, key)
    ensures s.g.keys[key] !in s.g.txns
  {
    var w := s.h.owner[key];
    assert !Stored(s.calls[w].pc);
    StoredIffSaved(cfg, s, w);
  }

  /** A call whose key is not claimed can win it. */
  lemma UnclaimedKeyIsWon(cfg: Config, early: seq<Pick>, i: nat) returns (late: seq<Pick>)
    requires i < |cfg.calls| && Exec(cfg, early).calls[i].pc.Start?
    requires cfg.calls[i].key !in Exec(cfg, early).g.keys
    ensures Winner(Exec(cfg, early + late).calls[i].pc)
  {
    hide Exec;
    var step := [Pick(i, false)];
    OneMore(cfg, early, i, false);
    OneMore(cfg, early + step, i, false);
    late := step + step;
    assert early + late == early + step + step;
  }

  /** The retry guarantee, exactly: a call about to begin is certain to be answered with the stored transaction,
      however the calls interleave from there, if and only if some call with its key has saved one by now. */
  lemma ReplayCertainIffSaved(cfg: Config, early: seq<Pick>, i: nat)
    requires i < |cfg.calls| && Exec(cfg, early).calls[i].pc.Start?
    ensures KeySaved(cfg, Exec(cfg, early), cfg.calls[i].key)
       <==> forall late :: Replaying(Exec(cfg, early + late).calls[i])
  {
    hide Exec;
    var s := Exec(cfg, early);
    if KeySaved(cfg, s, cfg.calls[i].key) {
      var w :| 0 <= w < |s.calls| && cfg.calls[w].key == cfg.calls[i].key && Stored(s.calls[w].pc);
      forall late
        ensures Replaying(Exec(cfg, early + late).calls[i])
      {
        LateRetryReplays(cfg, early, late, w, i);
      }
    } else if cfg.calls[i].key in s.g.keys {
      var late := UnsavedRetryFails(cfg, early, i);
      assert !Replaying(Exec(cfg, early + late).calls[i]);
    } else {
      var late := UnclaimedKeyIsWon(cfg, early, i);
      assert !Replaying(Exec(cfg, early + late).calls[i]);
    }
  }
}
