/** How many of many equal payments from one wallet succeed, under every interleaving. */
module Throughput {
  import opened Common
  import opened Validation
  import opened Protocol
  import opened ProtocolInvariant
  import opened Linearizability
  import opened Guarantees

  /** Every call on the wallet is a valid payment of the same positive amount with a key of its own, and nobody
      pays into the wallet. Other calls are arbitrary. */
  ghost predicate EqualPayments(cfg: Config, wallet: string, amount: nat) {
    && wallet in cfg.env.opening && 0 <= cfg.env.opening[wallet].minor && 0 < amount
    && (forall i :: 0 <= i < |cfg.calls| ==> cfg.calls[i].payee != wallet)
    && (forall i :: 0 <= i < |cfg.calls| && cfg.calls[i].payer == wallet ==> IsShare(cfg, i, wallet, amount))
  }

  ghost predicate IsShare(cfg: Config, i: nat, wallet: string, amount: nat)
    requires i < |cfg.calls| && wallet in cfg.env.opening
  {
    var inv := cfg.calls[i];
    && Buildable(inv) && Gate(cfg.env, inv) == Pass
    && inv.amount.minor == amount && inv.amount.ccy == cfg.env.opening[wallet].ccy
    && (forall j :: 0 <= j < |cfg.calls| && j != i ==> cfg.calls[j].key != inv.key)
  }

  /** The calls on the wallet, and those of them that were paid. */
  ghost function CallsOn(cfg: Config, wallet: string): set<nat> {
    set i: nat | i < |cfg.calls| && cfg.calls[i].payer == wallet
  }

  ghost function PaidFrom(cfg: Config, s: State, wallet: string): set<nat>
    requires Sized(cfg, s)
  {
    set i: nat | i < |cfg.calls| && cfg.calls[i].payer == wallet && s.calls[i].pc == Done(Paid)
  }

  function Min(a: nat, b: nat): nat {
    if a < b then a else b
  }

  // ----- The sequential run -----

  /** How many entries of an order are marked. */
  function Tally(order: seq<nat>, marked: set<nat>): nat {
    if order == [] then 0
    else Tally(order[..|order| - 1], marked) + (if order[|order| - 1] in marked then 1 else 0)
  }

  /** How many of the wallet's calls the sequential run pays. */
  function OrderPaid(cfg: Config, order: seq<nat>, wallet: string): nat
    requires forall k :: 0 <= k < |order| ==> order[k] < |cfg.calls|
  {
    if order == [] then 0
    else
      var n := |order| - 1;
      var paid := if cfg.calls[order[n]].payer == wallet && Answer(cfg, order, n) == Paid then 1 else 0;
      OrderPaid(cfg, order[..n], wallet) + paid
  }

  lemma Shares(a: nat, m: nat, q: nat)
    requires 1 <= m <= q
    ensures a * m <= a * q && a * m == a * (m - 1) + a
  {
    assert a * q == a * m + a * (q - m);
    assert 0 <= a * (q - m);
  }

  /** Taking one more share out of what is left of b, if a whole one is left. */
  lemma OneMoreShare(b: nat, a: nat, n: nat, left: int)
    requires 0 < a && left == b - a * Min(n, b / a)
    ensures Min(n + 1, b / a) == Min(n, b / a) + if a <= left then 1 else 0
    ensures b - a * Min(n + 1, b / a) == left - if a <= left then a else 0
  {
    var q := b / a;
    assert b == a * q + b % a;
    if n < q {
      Shares(a, n + 1, q);
    }
  }

  /** The sequential run pays the wallet's calls until the balance no longer covers one. */
  lemma {:induction false} SequentialShares(cfg: Config, order: seq<nat>, wallet: string, amount: nat)
    requires EqualPayments(cfg, wallet, amount)
    requires forall k :: 0 <= k < |order| ==> order[k] < |cfg.calls|
    ensures OrderPaid(cfg, order, wallet)
         == Min(Tally(order, CallsOn(cfg, wallet)), cfg.env.opening[wallet].minor / amount)
    ensures Replay(cfg, order)[wallet]
         == cfg.env.opening[wallet].minor
          - amount * Min(Tally(order, CallsOn(cfg, wallet)), cfg.env.opening[wallet].minor / amount)
  {
    if order != [] {
      var before := order[..|order| - 1];
      SequentialShares(cfg, before, wallet, amount);
      OrderStep(cfg, order, wallet, amount);
      var left := Replay(cfg, before)[wallet];
      OneMoreShare(cfg.env.opening[wallet].minor, amount, Tally(before, CallsOn(cfg, wallet)), left);
    } else {
      NoShares(cfg.env.opening[wallet].minor, amount);
    }
  }

  lemma NoShares(b: nat, a: nat)
    requires 0 < a
    ensures Min(0, b / a) == 0
  {
  }

  /** What the last call of an order does to the wallet and to the counts. */
  lemma OrderStep(cfg: Config, order: seq<nat>, wallet: string, amount: nat)
    requires EqualPayments(cfg, wallet, amount)
    requires order != [] && forall k :: 0 <= k < |order| ==> order[k] < |cfg.calls|
    ensures var before := order[..|order| - 1];
            var left := Replay(cfg, before)[wallet];
            if cfg.calls[order[|order| - 1]].payer == wallet then
              && Tally(order, CallsOn(cfg, wallet)) == Tally(before, CallsOn(cfg, wallet)) + 1
              && OrderPaid(cfg, order, wallet) == OrderPaid(cfg, before, wallet) + (if amount <= left then 1 else 0)
              && Replay(cfg, order)[wallet] == left - (if amount <= left then amount else 0)
            else
              && Tally(order, CallsOn(cfg, wallet)) == Tally(before, CallsOn(cfg, wallet))
              && OrderPaid(cfg, order, wallet) == OrderPaid(cfg, before, wallet)
              && Replay(cfg, order)[wallet] == left
  {
    ShareStep(cfg, Replay(cfg, order[..|order| - 1]), order[|order| - 1], wallet, amount);
  }

  lemma ShareStep(cfg: Config, balances: map<string, int>, i: nat, wallet: string, amount: nat)
    requires EqualPayments(cfg, wallet, amount) && i < |cfg.calls|
    requires balances.Keys == cfg.env.opening.Keys
    ensures var r := AtomicPay(cfg.env, balances, cfg.calls[i]);
            if cfg.calls[i].payer == wallet then
              && (r.1 == Paid <==> amount <= balances[wallet])
              && r.0[wallet] == balances[wallet] - if r.1 == Paid then amount else 0
            else r.0[wallet] == balances[wallet]
  {
    assert cfg.calls[i].payer == wallet ==> IsShare(cfg, i, wallet, amount);
  }

  // ----- Counting the finished calls -----

  ghost function Hits(order: seq<nat>, marked: set<nat>): set<nat> {
    set i | i in order && i in marked
  }

  lemma HitsStep(before: seq<nat>, last: nat, marked: set<nat>)
    requires last !in before
    ensures Hits(before + [last], marked) == Hits(before, marked) + (if last in marked then {last} else {})
    ensures |Hits(before + [last], marked)| == |Hits(before, marked)| + if last in marked then 1 else 0
  {
  }

  /** Along an order without repetition a tally is a cardinality. */
  lemma {:induction false} TallyIsSize(order: seq<nat>, marked: set<nat>)
    requires Distinct(order)
    ensures Tally(order, marked) == |Hits(order, marked)|
  {
    if order != [] {
      var n := |order| - 1;
      assert order == order[..n] + [order[n]];
      TallyIsSize(order[..n], marked);
      HitsStep(order[..n], order[n], marked);
    }
  }

  /** The marked calls are those the sequential run pays. */
  ghost predicate MarksPaid(cfg: Config, order: seq<nat>, wallet: string, paid: set<nat>)
    requires forall k :: 0 <= k < |order| ==> order[k] < |cfg.calls|
  {
    forall k :: 0 <= k < |order| ==>
      (order[k] in paid <==> cfg.calls[order[k]].payer == wallet && Answer(cfg, order, k) == Paid)
  }

  lemma MarksPaidBefore(cfg: Config, order: seq<nat>, wallet: string, paid: set<nat>)
    requires order != [] && forall k :: 0 <= k < |order| ==> order[k] < |cfg.calls|
    requires MarksPaid(cfg, order, wallet, paid)
    ensures MarksPaid(cfg, order[..|order| - 1], wallet, paid)
  {
    var before := order[..|order| - 1];
    forall k | 0 <= k < |before|
      ensures Answer(cfg, before, k) == Answer(cfg, order, k)
    {
      assert before[..k] == order[..k];
    }
  }

  lemma {:induction false} OrderPaidIsTally(cfg: Config, order: seq<nat>, wallet: string, paid: set<nat>)
    requires forall k :: 0 <= k < |order| ==> order[k] < |cfg.calls|
    requires MarksPaid(cfg, order, wallet, paid)
    ensures OrderPaid(cfg, order, wallet) == Tally(order, paid)
  {
    if order != [] {
      MarksPaidBefore(cfg, order, wallet, paid);
      OrderPaidIsTally(cfg, order[..|order| - 1], wallet, paid);
    }
  }

  /** Every call on the wallet wins its key, so once done it has decided. */
  lemma ShareWins(cfg: Config, s: State, wallet: string, amount: nat, i: nat)
    requires EqualPayments(cfg, wallet, amount) && Coherent(cfg, s) && AllDone(s)
    requires i < |cfg.calls| && cfg.calls[i].payer == wallet
    ensures Decision(s.calls[i].pc) == Some(s.calls[i].pc.out)
  {
    assert IsShare(cfg, i, wallet, amount);
    if !Winner(s.calls[i].pc) {
      LoserHasWinner(cfg, s, i);
    }
  }

  ghost predicate ExactShares(cfg: Config, s: State, wallet: string, amount: nat)
    requires Sized(cfg, s) && wallet in cfg.env.opening && 0 < amount
  {
    var b := cfg.env.opening[wallet].minor;
    && b >= 0
    && |PaidFrom(cfg, s, wallet)| == Min(|CallsOn(cfg, wallet)|, b / amount)
    && wallet in s.g.balances
    && s.g.balances[wallet] == b - amount * |PaidFrom(cfg, s, wallet)|
  }

  lemma ExactSharesFrom(cfg: Config, s: State, wallet: string, amount: nat)
    requires EqualPayments(cfg, wallet, amount) && Linear(cfg, s) && AllDone(s)
    ensures ExactShares(cfg, s, wallet, amount)
  {
    SequentialShares(cfg, s.h.decided, wallet, amount);
    QuietBalance(cfg, s, wallet);
    SharesCounted(cfg, s, wallet, amount);
  }

  lemma SharesCounted(cfg: Config, s: State, wallet: string, amount: nat)
    requires EqualPayments(cfg, wallet, amount) && Coherent(cfg, s) && AllDone(s)
    requires OrderFits(cfg, s) && AnswersFit(cfg, s)
    ensures Tally(s.h.decided, CallsOn(cfg, wallet)) == |CallsOn(cfg, wallet)|
    ensures OrderPaid(cfg, s.h.decided, wallet) == |PaidFrom(cfg, s, wallet)|
  {
    var order := s.h.decided;
    var calls, paid := CallsOn(cfg, wallet), PaidFrom(cfg, s, wallet);
    SharesDecided(cfg, s, wallet, amount);
    TallyIsSize(order, calls);
    TallyIsSize(order, paid);
    SameSet(Hits(order, calls), calls);
    SameSet(Hits(order, paid), paid);
    AnswersMarkPaid(cfg, s, wallet);
    OrderPaidIsTally(cfg, order, wallet, paid);
  }

  lemma SameSet(a: set<nat>, b: set<nat>)
    requires forall i :: i in a <==> i in b
    ensures a == b
  {
  }

  lemma SharesDecided(cfg: Config, s: State, wallet: string, amount: nat)
    requires EqualPayments(cfg, wallet, amount) && Coherent(cfg, s) && OrderFits(cfg, s) && AllDone(s)
    ensures forall i :: i in CallsOn(cfg, wallet) ==> i in s.h.decided
  {
    forall i | i in CallsOn(cfg, wallet)
      ensures i in s.h.decided
    {
      ShareWins(cfg, s, wallet, amount, i);
    }
  }

  lemma AnswersMarkPaid(cfg: Config, s: State, wallet: string)
    requires Sized(cfg, s) && OrderFits(cfg, s) && AnswersFit(cfg, s) && AllDone(s)
    ensures MarksPaid(cfg, s.h.decided, wallet, PaidFrom(cfg, s, wallet))
  {
    hide Answer, Replay, AtomicPay;
    var order := s.h.decided;
    forall k | 0 <= k < |order|
      ensures order[k] in PaidFrom(cfg, s, wallet) <==>
        cfg.calls[order[k]].payer == wallet && Answer(cfg, order, k) == Paid
    {
      assert Decision(s.calls[order[k]].pc) == Some(Answer(cfg, order, k));
    }
  }

  /** Exact success count: of N equal payments of `amount` from a wallet holding b, exactly min(N, b div amount)
      succeed and the wallet ends with what they leave, under every interleaving and whatever else goes on. */
  lemma ExactSuccessCount(cfg: Config, s: State, wallet: string, amount: nat)
    requires Reachable(cfg, s) && EqualPayments(cfg, wallet, amount) && AllDone(s)
    ensures ExactShares(cfg, s, wallet, amount)
  {
    var sched :| s == Exec(cfg, sched);
    AlwaysLinear(cfg, sched);
    ExactSharesFrom(cfg, s, wallet, amount);
  }
}
