/** Every interleaving of `pay` calls is equivalent to running the winners one after the other, each as one
    atomic payment, in the order in which they reached their decisions. */
module Linearizability {
  import opened Common
  import opened Domain
  import opened Validation
  import opened Protocol
  import opened ProtocolInvariant
  import opened Books
  import Ledger

  /** The sequential meaning of a payment: gate, debit and credit in one go. */
  function AtomicPay(env: Env, balances: map<string, int>, inv: Invocation): (r: (map<string, int>, Outcome))
    requires balances.Keys == env.opening.Keys
    ensures r.0.Keys == env.opening.Keys
    ensures !r.1.Paid? ==> r.0 == balances
  {
    if !Buildable(inv) then (balances, Threw)
    else
      match Gate(env, inv)
      case Throws => (balances, Threw)
      case Reject(code) => (balances, Refused(code))
      case Pass =>
        var (s, debited) := AfterDebit(env, balances, inv.payer, inv.amount);
        if s.Okay? then (AfterCredit(env, debited, inv.payee, inv.amount), Paid)
        else (balances, Refused(s.code))
  }

  /** The balances after the given calls, one atomic payment at a time. */
  function Replay(cfg: Config, order: seq<nat>): (balances: map<string, int>)
    requires forall k :: 0 <= k < |order| ==> order[k] < |cfg.calls|
    ensures balances.Keys == cfg.env.opening.Keys
  {
    if order == [] then OpeningBalances(cfg.env)
    else AtomicPay(cfg.env, Replay(cfg, order[..|order| - 1]), cfg.calls[order[|order| - 1]]).0
  }

  /** What the sequential run answers to its k-th call. */
  function Answer(cfg: Config, order: seq<nat>, k: nat): Outcome
    requires forall j :: 0 <= j < |order| ==> order[j] < |cfg.calls|
    requires k < |order|
  {
    AtomicPay(cfg.env, Replay(cfg, order[..k]), cfg.calls[order[k]]).1
  }

  /** The decision order lists each call that has decided, once. */
  ghost predicate OrderFits(cfg: Config, s: State)
    requires Sized(cfg, s)
  {
    && Distinct(s.h.decided)
    && (forall k :: 0 <= k < |s.h.decided| ==>
          s.h.decided[k] < |s.calls| && Decision(s.calls[s.h.decided[k]].pc).Some?)
    && (forall i :: 0 <= i < |s.calls| && Decision(s.calls[i].pc).Some? ==> i in s.h.decided)
  }

  /** Each decision is the one the sequential run gives. */
  ghost predicate AnswersFit(cfg: Config, s: State)
    requires Sized(cfg, s) && OrderFits(cfg, s)
  {
    forall k :: 0 <= k < |s.h.decided| ==>
      Decision(s.calls[s.h.decided[k]].pc) == Some(Answer(cfg, s.h.decided, k))
  }

  /** The sequential run has decided as the calls have, and its balances are the live ones plus what has been
      taken from payers and not yet offered to payees. */
  ghost predicate Linear(cfg: Config, s: State) {
    && Sound(cfg, s)
    && OrderFits(cfg, s)
    && AnswersFit(cfg, s)
    && (forall a :: a in cfg.env.opening ==> Mirrors(cfg, s, a))
  }

  ghost predicate Mirrors(cfg: Config, s: State, a: string)
    requires Sized(cfg, s) && OrderFits(cfg, s)
    requires s.g.balances.Keys == cfg.env.opening.Keys && a in cfg.env.opening
  {
    Replay(cfg, s.h.decided)[a] == s.g.balances[a] + SumOver(cfg, s.calls, Pending(a))
  }

  /** A decision, once reached, stands. */
  ghost predicate DecisionMove(env: Env, inv: Invocation, g: Shared, c: Call, c': Call) {
    if Decision(c.pc).Some? then Decision(c'.pc) == Decision(c.pc)
    else if c.pc.Claimed? then Decision(c'.pc) == if Buildable(inv) then None else Some(Threw)
    else if c.pc.Holding? then
      Decision(c'.pc) == match Gate(env, inv)
                         case Pass => None
                         case Reject(code) => Some(Refused(code))
                         case Throws => Some(Threw)
    else if c.pc.Approved? then
      inv.payer in g.balances && inv.payer in env.opening &&
      var s := DebitStatus(g.balances[inv.payer], env.opening[inv.payer].ccy, inv.amount);
      Decision(c'.pc) == if s.Okay? then None else Some(Refused(s.code))
    else Decision(c'.pc) == if c.pc.Debited? then Some(Paid) else None
  }

  lemma StepMovesDecision(env: Env, inv: Invocation, me: nat, g: Shared, c: Call, b: bool)
    requires CanMove(env, inv, g, c) && PathShape(env, inv, c)
    ensures DecisionMove(env, inv, g, c, StepOf(env, inv, me, g, c, b).1)
  {
    if c.pc.Credited? {
      CreditedStep(env, inv, me, g, c, b);
    } else {
      DecisionMovesElsewhere(env, inv, me, g, c, b);
    }
  }

  lemma DecisionMovesElsewhere(env: Env, inv: Invocation, me: nat, g: Shared, c: Call, b: bool)
    requires CanMove(env, inv, g, c) && PathShape(env, inv, c) && !c.pc.Credited?
    ensures DecisionMove(env, inv, g, c, StepOf(env, inv, me, g, c, b).1)
  {
    hide Ledger.PostStatus;
  }

  lemma ReplayAppend(cfg: Config, order: seq<nat>, i: nat)
    requires forall k :: 0 <= k < |order| ==> order[k] < |cfg.calls|
    requires i < |cfg.calls|
    ensures Replay(cfg, order + [i]) == AtomicPay(cfg.env, Replay(cfg, order), cfg.calls[i]).0
    ensures Answer(cfg, order + [i], |order|) == AtomicPay(cfg.env, Replay(cfg, order), cfg.calls[i]).1
    ensures forall k :: 0 <= k < |order| ==> Answer(cfg, order + [i], k) == Answer(cfg, order, k)
  {
    var next := order + [i];
    assert next[..|next| - 1] == order;
    assert next[..|order|] == order;
    forall k | 0 <= k < |order|
      ensures Answer(cfg, next, k) == Answer(cfg, order, k)
    {
      assert next[..k] == order[..k];
    }
  }

  /** Past the gate, an atomic payment answers as its debit does. */
  lemma AtomicAnswer(env: Env, balances: map<string, int>, inv: Invocation)
    requires balances.Keys == env.opening.Keys && inv.payer in balances
    requires Buildable(inv) && Gate(env, inv) == Pass
    ensures var s := DebitStatus(balances[inv.payer], env.opening[inv.payer].ccy, inv.amount);
            AtomicPay(env, balances, inv).1 == if s.Okay? then Paid else Refused(s.code)
  {
  }

  /** The effect of a successful atomic payment on one account. */
  lemma AtomicEffect(env: Env, balances: map<string, int>, inv: Invocation, a: string)
    requires balances.Keys == env.opening.Keys && a in balances
    requires Buildable(inv) && Gate(env, inv) == Pass && 0 <= inv.amount.minor
    requires inv.payer in balances && DebitStatus(balances[inv.payer], env.opening[inv.payer].ccy, inv.amount).Okay?
    ensures AtomicPay(env, balances, inv).1 == Paid
    ensures AtomicPay(env, balances, inv).0[a] == balances[a]
      - (if inv.payer == a then inv.amount.minor else 0)
      + (if inv.payee == a && Accepts(env, inv) then inv.amount.minor else 0)
  {
  }

  /** Under the payer's lock nobody else has money of this payer in flight. */
  lemma AloneInFlight(cfg: Config, s: State, i: nat)
    requires Sized(cfg, s) && Locks(cfg, s) && i < |s.calls|
    requires s.calls[i].pc.Approved?
    ensures SumOver(cfg, s.calls, Pending(cfg.calls[i].payer)) == 0
  {
    var w := Pending(cfg.calls[i].payer);
    forall j | 0 <= j < |s.calls|
      ensures Weigh(cfg.env, cfg.calls[j], s.calls[j], w) == 0
    {
      if s.calls[j].pc.Debited? && cfg.calls[j].payer == cfg.calls[i].payer {
        OneCriticalPerPayer(cfg, s, i, j);
      }
    }
    SumZero(cfg, s.calls, w);
  }

  /** What has been taken from call `i`'s payer covers the amount call `i` has taken. */
  lemma OwnMoneyInFlight(cfg: Config, s: State, i: nat)
    requires Sized(cfg, s) && Coherent(cfg, s) && i < |s.calls|
    requires s.calls[i].pc.Debited?
    ensures SumOver(cfg, s.calls, Pending(cfg.calls[i].payer)) >= cfg.calls[i].amount.minor
  {
    hide Coherent;
    var w := Pending(cfg.calls[i].payer);
    WeightsNonNegative(cfg, s, w);
    SumDominates(cfg, s.calls, w, i);
  }

  /** Where an account stands in the sequential run. */
  lemma SequentialBalance(cfg: Config, s: State, a: string)
    requires Linear(cfg, s) && a in cfg.env.opening
    ensures Replay(cfg, s.h.decided)[a] == s.g.balances[a] + SumOver(cfg, s.calls, Pending(a))
  {
    hide Gate, AtomicPay;
    assert Mirrors(cfg, s, a);
  }

  /** A successful payment also succeeds in the sequential run: its payer has the money there. */
  lemma FundsAreThere(cfg: Config, s: State, i: nat)
    requires Linear(cfg, s) && i < |s.calls|
    requires s.calls[i].pc.Debited?
    ensures Buildable(cfg.calls[i]) && Gate(cfg.env, cfg.calls[i]) == Pass && 0 <= cfg.calls[i].amount.minor
    ensures cfg.calls[i].payer in cfg.env.opening
    ensures cfg.calls[i].amount.ccy == cfg.env.opening[cfg.calls[i].payer].ccy
    ensures cfg.calls[i].amount.minor <= Replay(cfg, s.h.decided)[cfg.calls[i].payer]
  {
    assert CallShape(cfg.env, cfg.calls[i], s.calls[i]);
    SequentialBalance(cfg, s, cfg.calls[i].payer);
    OwnMoneyInFlight(cfg, s, i);
  }

  /** A call about to debit sees the balance the sequential run would show it. */
  lemma SeesSequentialBalance(cfg: Config, s: State, i: nat)
    requires Linear(cfg, s) && i < |s.calls|
    requires s.calls[i].pc.Approved?
    ensures Buildable(cfg.calls[i]) && Gate(cfg.env, cfg.calls[i]) == Pass
    ensures cfg.calls[i].payer in cfg.env.opening
    ensures Replay(cfg, s.h.decided)[cfg.calls[i].payer] == s.g.balances[cfg.calls[i].payer]
  {
    assert CallShape(cfg.env, cfg.calls[i], s.calls[i]);
    SequentialBalance(cfg, s, cfg.calls[i].payer);
    AloneInFlight(cfg, s, i);
  }

  /** The step that decides call `i` gives it the answer an atomic payment would get at that moment. */
  lemma DecidesAsAtomic(cfg: Config, s: State, c': Call, i: nat)
    requires Linear(cfg, s) && i < |s.calls|
    requires DecisionMove(cfg.env, cfg.calls[i], s.g, s.calls[i], c')
    requires Decision(s.calls[i].pc).None? && Decision(c'.pc).Some?
    ensures Decision(c'.pc) == Some(AtomicPay(cfg.env, Replay(cfg, s.h.decided), cfg.calls[i]).1)
    ensures Decision(c'.pc) == Some(Paid) <==> s.calls[i].pc.Debited?
  {
    var inv := cfg.calls[i];
    assert CallShape(cfg.env, inv, s.calls[i]);
    var balances := Replay(cfg, s.h.decided);
    if s.calls[i].pc.Approved? {
      SeesSequentialBalance(cfg, s, i);
      AtomicAnswer(cfg.env, balances, inv);
    } else if s.calls[i].pc.Debited? {
      FundsAreThere(cfg, s, i);
      AtomicAnswer(cfg.env, balances, inv);
    }
  }

  ghost predicate DecidedMove(s: State, s': State, i: nat)
    requires i < |s.calls| && i < |s'.calls|
  {
    s'.h.decided == if Decision(s.calls[i].pc).None? && Decision(s'.calls[i].pc).Some?
                    then s.h.decided + [i] else s.h.decided
  }

  /** How the sequential balance of an account moves when call `i` decides. */
  lemma SequentialMove(cfg: Config, s: State, c': Call, i: nat, a: string)
    requires Linear(cfg, s) && i < |s.calls| && a in cfg.env.opening
    requires DecisionMove(cfg.env, cfg.calls[i], s.g, s.calls[i], c')
    requires Decision(s.calls[i].pc).None? && Decision(c'.pc).Some?
    ensures Replay(cfg, s.h.decided + [i])[a] == Replay(cfg, s.h.decided)[a]
      - (if s.calls[i].pc.Debited? && cfg.calls[i].payer == a then cfg.calls[i].amount.minor else 0)
      + (if s.calls[i].pc.Debited? && cfg.calls[i].payee == a && Accepts(cfg.env, cfg.calls[i])
         then cfg.calls[i].amount.minor else 0)
  {
    var balances := Replay(cfg, s.h.decided);
    ReplayAppend(cfg, s.h.decided, i);
    DecidesAsAtomic(cfg, s, c', i);
    if s.calls[i].pc.Debited? {
      FundsAreThere(cfg, s, i);
      AtomicEffect(cfg.env, balances, cfg.calls[i], a);
    }
  }

  /** How the live balance of an account and its money in flight move together. */
  lemma LiveMove(cfg: Config, s: State, s': State, i: nat, a: string)
    requires OnlyMoved(cfg, s, s', i) && a in cfg.env.opening
    requires Steady(cfg.env, cfg.calls[i], s.g, s.calls[i])
    requires MoneyMove(cfg.env, cfg.calls[i], s.g, s.calls[i], s'.g, s'.calls[i])
    ensures a in s'.g.balances
    ensures s'.g.balances[a] + SumOver(cfg, s'.calls, Pending(a)) == s.g.balances[a] + SumOver(cfg, s.calls, Pending(a))
      - (if s.calls[i].pc.Debited? && cfg.calls[i].payer == a then cfg.calls[i].amount.minor else 0)
      + (if s.calls[i].pc.Debited? && cfg.calls[i].payee == a && Accepts(cfg.env, cfg.calls[i])
         then cfg.calls[i].amount.minor else 0)
  {
    SumUpdate(cfg, s.calls, i, s'.calls[i], Pending(a));
  }

  lemma MirrorsKept(cfg: Config, s: State, s': State, i: nat, a: string)
    requires Linear(cfg, s) && a in cfg.env.opening
    requires OnlyMoved(cfg, s, s', i) && OrderFits(cfg, s')
    requires s'.g.balances.Keys == cfg.env.opening.Keys
    requires Steady(cfg.env, cfg.calls[i], s.g, s.calls[i])
    requires MoneyMove(cfg.env, cfg.calls[i], s.g, s.calls[i], s'.g, s'.calls[i])
    requires DecisionMove(cfg.env, cfg.calls[i], s.g, s.calls[i], s'.calls[i])
    requires DecidedMove(s, s', i)
    ensures Mirrors(cfg, s', a)
  {
    SequentialBalance(cfg, s, a);
    LiveMove(cfg, s, s', i, a);
    if Decision(s.calls[i].pc).None? && Decision(s'.calls[i].pc).Some? {
      SequentialMove(cfg, s, s'.calls[i], i, a);
    }
  }

  lemma OrderKept(cfg: Config, s: State, s': State, i: nat)
    requires OnlyMoved(cfg, s, s', i) && OrderFits(cfg, s)
    requires Decision(s.calls[i].pc).Some? ==> Decision(s'.calls[i].pc).Some?
    requires DecidedMove(s, s', i)
    ensures OrderFits(cfg, s')
  {
    if Decision(s.calls[i].pc).None? && Decision(s'.calls[i].pc).Some? {
      assert i !in s.h.decided;
      forall j | 0 <= j < |s'.calls| && Decision(s'.calls[j].pc).Some?
        ensures j in s'.h.decided
      {
        assert j == i || j in s.h.decided;
        assert s'.h.decided[|s.h.decided|] == i;
      }
    }
  }

  lemma LinearStep(cfg: Config, s: State, i: nat, b: bool)
    requires Linear(cfg, s) && Enabled(cfg, s, i)
    ensures Linear(cfg, Next(cfg, s, i, b))
  {
    var s' := Next(cfg, s, i, b);
    assert CallShape(cfg.env, cfg.calls[i], s.calls[i]);
    SoundStep(cfg, s, i, b);
    StepMovesMoney(cfg.env, cfg.calls[i], i, s.g, s.calls[i], b);
    StepMovesDecision(cfg.env, cfg.calls[i], i, s.g, s.calls[i], b);
    LinearKept(cfg, s, s', i);
  }

  lemma LinearKept(cfg: Config, s: State, s': State, i: nat)
    requires Linear(cfg, s)
    requires Sound(cfg, s') && OnlyMoved(cfg, s, s', i)
    requires Steady(cfg.env, cfg.calls[i], s.g, s.calls[i])
    requires MoneyMove(cfg.env, cfg.calls[i], s.g, s.calls[i], s'.g, s'.calls[i])
    requires DecisionMove(cfg.env, cfg.calls[i], s.g, s.calls[i], s'.calls[i])
    requires DecidedMove(s, s', i)
    ensures Linear(cfg, s')
  {
    hide Steady, MoneyMove, AtomicPay, Mirrors, Agrees, Ids, Keys, Locks, Repository;
    OrderKept(cfg, s, s', i);
    forall a | a in cfg.env.opening
      ensures Mirrors(cfg, s', a)
    {
      MirrorsKept(cfg, s, s', i, a);
    }
    forall k | 0 <= k < |s'.h.decided|
      ensures Decision(s'.calls[s'.h.decided[k]].pc) == Some(Answer(cfg, s'.h.decided, k))
    {
      AnswersKept(cfg, s, s', i, k);
    }
  }

  lemma AnswersKept(cfg: Config, s: State, s': State, i: nat, k: nat)
    requires Linear(cfg, s)
    requires OnlyMoved(cfg, s, s', i) && OrderFits(cfg, s')
    requires DecisionMove(cfg.env, cfg.calls[i], s.g, s.calls[i], s'.calls[i])
    requires DecidedMove(s, s', i)
    requires k < |s'.h.decided|
    ensures Decision(s'.calls[s'.h.decided[k]].pc) == Some(Answer(cfg, s'.h.decided, k))
  {
    hide Mirrors, Sound, AtomicPay, Replay;
    if k < |s.h.decided| {
      OldAnswersKept(cfg, s, s', i, k);
    } else {
      ReplayAppend(cfg, s.h.decided, i);
      DecidesAsAtomic(cfg, s, s'.calls[i], i);
    }
  }

  lemma OldAnswersKept(cfg: Config, s: State, s': State, i: nat, k: nat)
    requires OnlyMoved(cfg, s, s', i) && OrderFits(cfg, s) && OrderFits(cfg, s')
    requires DecisionMove(cfg.env, cfg.calls[i], s.g, s.calls[i], s'.calls[i])
    requires DecidedMove(s, s', i)
    requires k < |s.h.decided|
    requires Decision(s.calls[s.h.decided[k]].pc) == Some(Answer(cfg, s.h.decided, k))
    ensures Decision(s'.calls[s'.h.decided[k]].pc) == Some(Answer(cfg, s'.h.decided, k))
  {
    assert s'.h.decided[k] == s.h.decided[k];
    assert s'.h.decided[..k] == s.h.decided[..k];
  }

  lemma LinearInit(cfg: Config)
    ensures Linear(cfg, Init(cfg))
  {
    SoundInit(cfg);
    forall a | a in cfg.env.opening
      ensures Mirrors(cfg, Init(cfg), a)
    {
      SumZero(cfg, Init(cfg).calls, Pending(a));
    }
  }

  lemma {:induction false} AlwaysLinear(cfg: Config, sched: seq<Pick>)
    ensures Linear(cfg, Exec(cfg, sched))
  {
    hide Linear, CanMove, StepOf;
    if sched == [] {
      LinearInit(cfg);
    } else {
      var before := Exec(cfg, sched[..|sched| - 1]);
      var p := sched[|sched| - 1];
      AlwaysLinear(cfg, sched[..|sched| - 1]);
      if Enabled(cfg, before, p.call) {
        LinearStep(cfg, before, p.call, p.seqFirst);
      }
    }
  }

  ghost predicate NothingInFlight(s: State) {
    forall i :: 0 <= i < |s.calls| ==> !s.calls[i].pc.Debited?
  }

  lemma QuietBalance(cfg: Config, s: State, a: string)
    requires Linear(cfg, s) && NothingInFlight(s) && a in cfg.env.opening
    ensures a in s.g.balances && Replay(cfg, s.h.decided)[a] == s.g.balances[a]
  {
    SequentialBalance(cfg, s, a);
    SumZero(cfg, s.calls, Pending(a));
  }

  lemma SameMap(m: map<string, int>, n: map<string, int>)
    requires m.Keys == n.Keys && forall a :: a in m ==> m[a] == n[a]
    ensures m == n
  {
  }

  lemma QuietBalances(cfg: Config, s: State)
    requires Linear(cfg, s) && NothingInFlight(s)
    ensures s.g.balances == Replay(cfg, s.h.decided)
  {
    var sequential := Replay(cfg, s.h.decided);
    forall a | a in cfg.env.opening
      ensures a in s.g.balances && s.g.balances[a] == sequential[a]
    {
      QuietBalance(cfg, s, a);
    }
    SameMap(s.g.balances, sequential);
  }

  /** Linearizability: after any schedule the calls that have decided, in the order in which they did, form a
      sequential run of atomic payments that gives every one of them the same answer, error codes included;
      and whenever no call is between its debit and its credit, the live balances are that run's balances. */
  lemma Linearizable(cfg: Config, s: State)
    requires Reachable(cfg, s)
    ensures OrderFits(cfg, s) && AnswersFit(cfg, s)
    ensures NothingInFlight(s) ==> s.g.balances == Replay(cfg, s.h.decided)
  {
    var sched :| s == Exec(cfg, sched);
    AlwaysLinear(cfg, sched);
    if NothingInFlight(s) {
      QuietBalances(cfg, s);
    }
  }

  /** Decisions are only ever appended. */
  lemma {:induction false} DecidedGrows(cfg: Config, early: seq<Pick>, late: seq<Pick>)
    ensures Exec(cfg, early).h.decided <= Exec(cfg, early + late).h.decided
  {
    if late == [] {
      assert early + late == early;
    } else {
      ExecOn(cfg, early, late);
      DecidedGrows(cfg, early, late[..|late| - 1]);
    }
  }

  /** The sequential order respects real time: if call `i` had decided before call `j` began, it comes first. */
  lemma RealTimeOrder(cfg: Config, early: seq<Pick>, late: seq<Pick>, i: nat, j: nat, p: nat, q: nat)
    requires i < |cfg.calls| && j < |cfg.calls|
    requires Decision(Exec(cfg, early).calls[i].pc).Some? && Exec(cfg, early).calls[j].pc.Start?
    requires p < |Exec(cfg, early + late).h.decided| && Exec(cfg, early + late).h.decided[p] == i
    requires q < |Exec(cfg, early + late).h.decided| && Exec(cfg, early + late).h.decided[q] == j
    ensures p < q
  {
    hide Exec, Sound, AnswersFit, Mirrors;
    var s, s' := Exec(cfg, early), Exec(cfg, early + late);
    AlwaysLinear(cfg, early);
    AlwaysLinear(cfg, early + late);
    DecidedGrows(cfg, early, late);
    assert i in s.h.decided;
    var k :| 0 <= k < |s.h.decided| && s.h.decided[k] == i;
    assert s'.h.decided[k] == i;
    assert j !in s.h.decided;
    forall r | 0 <= r < |s.h.decided|
      ensures s'.h.decided[r] != j
    {
      assert s'.h.decided[r] == s.h.decided[r];
    }
  }
}
