/** When a payment destroys money, said of the request and the balance it meets: the credit of an account kept in
    another currency is refused, and the service ignores the refusal. */
module Losses {
  import opened Common
  import opened Validation
  import opened Protocol
  import opened ProtocolInvariant
  import opened Books
  import opened Linearizability
  import opened Alone
  import opened Replays

  /** The request gets past the gate and the payer's account takes its currency, but the payee's does not. */
  predicate MayLose(env: Env, inv: Invocation) {
    && Buildable(inv) && Gate(env, inv) == Pass
    && inv.payer in env.opening && env.opening[inv.payer].ccy == inv.amount.ccy
    && 0 < inv.amount.minor && !Accepts(env, inv)
  }

  /** And the payer can afford it. */
  predicate Loses(env: Env, balances: map<string, int>, inv: Invocation)
    requires balances.Keys == env.opening.Keys
  {
    MayLose(env, inv) && inv.amount.minor <= balances[inv.payer]
  }

  /** A payment keeps the total of every currency if and only if it is not such a request. */
  lemma PaymentConserves(env: Env, balances: map<string, int>, inv: Invocation, names: seq<string>, ccy: Currency)
    requires balances.Keys == env.opening.Keys && Lists(env, names, ccy)
    ensures Total(AtomicPay(env, balances, inv).0, names) == Total(balances, names)
      - (if inv.amount.ccy == ccy && Loses(env, balances, inv) then inv.amount.minor else 0)
    ensures Total(AtomicPay(env, balances, inv).0, names) == Total(balances, names)
      <==> !(inv.amount.ccy == ccy && Loses(env, balances, inv))
  {
    hide Total, RunChain;
    if AtomicPay(env, balances, inv).1.Paid? {
      var debited := AfterDebit(env, balances, inv.payer, inv.amount).1;
      TotalUpdate(balances, names, inv.payer, balances[inv.payer] - inv.amount.minor);
      TotalUpdate(debited, names, inv.payee, debited[inv.payee] + inv.amount.minor);
    }
  }

  /** The same of an undisturbed call of `pay`, whether its key is new or not. */
  lemma CallConserves(env: Env, inv: Invocation, me: nat, g: Shared, names: seq<string>, ccy: Currency)
    requires g.balances.Keys == env.opening.Keys && LockFree(g, inv) && Lists(env, names, ccy)
    ensures var after := RunFrom(env, inv, me, g, FRESH).0.balances;
            && after.Keys == env.opening.Keys
            && (Total(after, names) == Total(g.balances, names)
                <==> !(inv.key !in g.keys && inv.amount.ccy == ccy && Loses(env, g.balances, inv)))
  {
    hide RunFrom, Total, Gate, AtomicPay;
    if inv.key in g.keys {
      RetryRuns(env, inv, me, g);
    } else {
      AloneIsAtomic(env, inv, me, g);
      PaymentConserves(env, g.balances, inv, names, ccy);
    }
  }

  /** A payment that has destroyed money was such a request. */
  lemma OnlySuchCallsLose(cfg: Config, s: State, ccy: Currency)
    requires Reachable(cfg, s) && LosesMoney(cfg, s, ccy)
    ensures exists i :: 0 <= i < |cfg.calls| && cfg.calls[i].amount.ccy == ccy && MayLose(cfg.env, cfg.calls[i])
  {
    hide Exec, Gate;
    var sched :| s == Exec(cfg, sched);
    AlwaysCoherent(cfg, sched);
    var i :| 0 <= i < |s.calls| && HasLost(cfg, s, i, ccy);
    assert CallShape(cfg.env, cfg.calls[i], s.calls[i]);
    PayerExists(cfg.env, cfg.calls[i]);
  }

  lemma PayerExists(env: Env, inv: Invocation)
    requires Gate(env, inv) == Pass
    ensures inv.payer in env.opening
  {
  }

  /** The k-th payment of the sequential run is such a request, and affordable when its turn comes. */
  ghost predicate LosesInOrder(cfg: Config, order: seq<nat>, k: nat, ccy: Currency)
    requires k < |order| && forall j :: 0 <= j < |order| ==> order[j] < |cfg.calls|
  {
    cfg.calls[order[k]].amount.ccy == ccy && Loses(cfg.env, Replay(cfg, order[..k]), cfg.calls[order[k]])
  }

  lemma PaidAndLost(env: Env, balances: map<string, int>, inv: Invocation)
    requires balances.Keys == env.opening.Keys
    ensures Loses(env, balances, inv)
       <==> AtomicPay(env, balances, inv).1.Paid? && !Accepts(env, inv) && inv.amount.minor != 0
  {
    hide RunChain;
  }

  /** Whatever the interleaving: a currency has lost money if and only if the sequential run the interleaving amounts
      to contains such a request, with the balance it meets there. */
  lemma LossesAreInOrder(cfg: Config, s: State, ccy: Currency)
    requires Reachable(cfg, s)
    ensures OrderFits(cfg, s)
    ensures LosesMoney(cfg, s, ccy)
       <==> exists k :: 0 <= k < |s.h.decided| && LosesInOrder(cfg, s.h.decided, k, ccy)
  {
    hide Exec, Loses, AtomicPay, Accepts, Replay;
    Linearizable(cfg, s);
    forall k | 0 <= k < |s.h.decided|
      ensures LosesInOrder(cfg, s.h.decided, k, ccy) <==> HasLost(cfg, s, s.h.decided[k], ccy)
    {
      assert Decision(s.calls[s.h.decided[k]].pc) == Some(Answer(cfg, s.h.decided, k));
      PaidAndLost(cfg.env, Replay(cfg, s.h.decided[..k]), cfg.calls[s.h.decided[k]]);
    }
    if LosesMoney(cfg, s, ccy) {
      var i :| 0 <= i < |s.calls| && HasLost(cfg, s, i, ccy);
      assert i in s.h.decided;
    }
  }

  /** Conservation in terms of requests and the balances they meet. */
  lemma ConservedUnlessLostInOrder(cfg: Config, s: State, names: seq<string>, ccy: Currency)
    requires Reachable(cfg, s) && Lists(cfg.env, names, ccy)
    ensures s.g.balances.Keys == cfg.env.opening.Keys && OrderFits(cfg, s)
    ensures Total(s.g.balances, names) + SumOver(cfg, s.calls, Transit(ccy)) == Total(OpeningBalances(cfg.env), names)
       <==> forall k :: 0 <= k < |s.h.decided| ==> !LosesInOrder(cfg, s.h.decided, k, ccy)
  {
    hide Exec, Total, LosesMoney, LosesInOrder;
    Conservation(cfg, s, names, ccy);
    LossesAreInOrder(cfg, s, ccy);
  }

  ghost predicate NoCallMayLose(cfg: Config, ccy: Currency) {
    forall i :: 0 <= i < |cfg.calls| && cfg.calls[i].amount.ccy == ccy ==> !MayLose(cfg.env, cfg.calls[i])
  }

  /** If no request in a currency is of this kind, in particular if every payee takes the currency it is paid in,
      the currency is conserved exactly under every schedule. */
  lemma ConservedWithoutLosers(cfg: Config, s: State, names: seq<string>, ccy: Currency)
    requires Reachable(cfg, s) && Lists(cfg.env, names, ccy) && NoCallMayLose(cfg, ccy)
    ensures s.g.balances.Keys == cfg.env.opening.Keys
    ensures Total(s.g.balances, names) + SumOver(cfg, s.calls, Transit(ccy)) == Total(OpeningBalances(cfg.env), names)
  {
    hide Exec, Total, MayLose;
    Conservation(cfg, s, names, ccy);
    if LosesMoney(cfg, s, ccy) {
      OnlySuchCallsLose(cfg, s, ccy);
    }
  }

  /** A request of this kind that the opening balance covers does destroy money under some schedule. */
  lemma SuchACallLoses(cfg: Config, i: nat) returns (s: State)
    requires i < |cfg.calls| && Loses(cfg.env, OpeningBalances(cfg.env), cfg.calls[i])
    ensures Reachable(cfg, s) && LosesMoney(cfg, s, cfg.calls[i].amount.ccy)
  {
    hide RunFrom, RunChain, StepOf;
    var sched := LetRun(cfg, [], i);
    s := Exec(cfg, [] + sched);
    AloneIsAtomic(cfg.env, cfg.calls[i], i, InitShared(cfg.env));
    assert HasLost(cfg, s, i, cfg.calls[i].amount.ccy);
  }

  /** So, among calls the opening balances cover, the condition on the requests is exact: a currency is conserved under
      every schedule if and only if no request in it is of this kind. */
  lemma ConservedIffNoLosers(cfg: Config, ccy: Currency)
    requires forall i :: 0 <= i < |cfg.calls| && MayLose(cfg.env, cfg.calls[i]) ==>
               Loses(cfg.env, OpeningBalances(cfg.env), cfg.calls[i])
    ensures (forall s :: Reachable(cfg, s) ==> !LosesMoney(cfg, s, ccy)) <==> NoCallMayLose(cfg, ccy)
  {
    hide Exec, MayLose, LosesMoney;
    if NoCallMayLose(cfg, ccy) {
      forall s | Reachable(cfg, s)
        ensures !LosesMoney(cfg, s, ccy)
      {
        if LosesMoney(cfg, s, ccy) {
          OnlySuchCallsLose(cfg, s, ccy);
        }
      }
    } else {
      var i :| 0 <= i < |cfg.calls| && cfg.calls[i].amount.ccy == ccy && MayLose(cfg.env, cfg.calls[i]);
      var s := SuchACallLoses(cfg, i);
    }
  }
}
