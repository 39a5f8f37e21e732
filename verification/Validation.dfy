/** The validation pipeline: handlers run in order and the first rejection wins. */
module Validation {
  import opened Common

  datatype Handler =
    | BasicCheck
    | LimitCheck(limit: Money)
    | FraudCheck(threshold: Money)

  /** Comparing amounts of different currencies throws instead of returning a status. */
  datatype Verdict = Pass | Reject(code: ErrorCode) | Throws

  function Check(h: Handler, payer: string, payee: string, amount: Money): Verdict {
    match h
    case BasicCheck =>
      if amount.minor <= 0 then Reject(ValidationFailed)
      else if payer == payee then Reject(ValidationFailed)
      else Pass
    case LimitCheck(limit) =>
      if amount.ccy != limit.ccy then Throws
      else if amount.minor > limit.minor then Reject(ValidationFailed)
      else Pass
    case FraudCheck(threshold) =>
      if amount.ccy != threshold.ccy then Throws
      else if amount.minor >= threshold.minor then Reject(FraudRejected)
      else Pass
  }

  function RunChain(chain: seq<Handler>, payer: string, payee: string, amount: Money): Verdict {
    if chain == [] then Pass
    else
      var v := Check(chain[0], payer, payee, amount);
      if v == Pass then RunChain(chain[1..], payer, payee, amount) else v
  }

  /** The chain's answer is that of the first handler that does not pass. */
  lemma {:induction false} FirstObjectionWins(chain: seq<Handler>, payer: string, payee: string, amount: Money, k: nat)
    requires k <= |chain|
    requires forall j :: 0 <= j < k ==> Check(chain[j], payer, payee, amount) == Pass
    requires k < |chain| ==> Check(chain[k], payer, payee, amount) != Pass
    ensures RunChain(chain, payer, payee, amount)
         == if k < |chain| then Check(chain[k], payer, payee, amount) else Pass
  {
    if 0 < k {
      assert forall j :: 0 <= j < k - 1 ==> chain[1..][j] == chain[j + 1];
      FirstObjectionWins(chain[1..], payer, payee, amount, k - 1);
    }
  }

  /** An accepted request was accepted by every handler, wherever it stands. */
  lemma {:induction false} PassedEveryHandler(chain: seq<Handler>, payer: string, payee: string, amount: Money,
                                              h: Handler)
    requires RunChain(chain, payer, payee, amount) == Pass
    requires h in chain
    ensures Check(h, payer, payee, amount) == Pass
  {
    if h != chain[0] {
      assert h in chain[1..];
      PassedEveryHandler(chain[1..], payer, payee, amount, h);
    }
  }

  /** What each handler demands of a request. */
  predicate Clears(h: Handler, payer: string, payee: string, amount: Money) {
    match h
    case BasicCheck => 0 < amount.minor && payer != payee
    case LimitCheck(limit) => amount.ccy == limit.ccy && amount.minor <= limit.minor
    case FraudCheck(threshold) => amount.ccy == threshold.ccy && amount.minor < threshold.minor
  }

  /** A handler passes exactly what it demands; what it answers otherwise. */
  lemma HandlerAnswers(h: Handler, payer: string, payee: string, amount: Money)
    ensures Check(h, payer, payee, amount) == Pass <==> Clears(h, payer, payee, amount)
    ensures Check(h, payer, payee, amount) == Throws
       <==> (h.LimitCheck? && amount.ccy != h.limit.ccy) || (h.FraudCheck? && amount.ccy != h.threshold.ccy)
    ensures Check(h, payer, payee, amount) == Reject(FraudRejected)
       <==> h.FraudCheck? && amount.ccy == h.threshold.ccy && h.threshold.minor <= amount.minor
    ensures Check(h, payer, payee, amount).Reject? ==>
      Check(h, payer, payee, amount).code == if h.FraudCheck? then FraudRejected else ValidationFailed
  {
  }

  /** A chain passes exactly what all its handlers demand. */
  lemma {:induction false} ChainPasses(chain: seq<Handler>, payer: string, payee: string, amount: Money)
    ensures RunChain(chain, payer, payee, amount) == Pass
       <==> forall h :: h in chain ==> Clears(h, payer, payee, amount)
  {
    if chain != [] {
      HandlerAnswers(chain[0], payer, payee, amount);
      ChainPasses(chain[1..], payer, payee, amount);
      assert forall h :: h in chain <==> h == chain[0] || h in chain[1..];
    }
  }

  /** The chain as it is shipped: structure, then limit, then fraud screening. */
  lemma ShippedChain(limit: Money, threshold: Money, payer: string, payee: string, amount: Money)
    ensures var v := RunChain([BasicCheck, LimitCheck(limit), FraudCheck(threshold)], payer, payee, amount);
            var sound := 0 < amount.minor && payer != payee;
            var limited := amount.ccy == limit.ccy && amount.minor <= limit.minor;
            && (v == Pass <==> sound && limited && amount.ccy == threshold.ccy && amount.minor < threshold.minor)
            && (v == Reject(FraudRejected)
                <==> sound && limited && amount.ccy == threshold.ccy && threshold.minor <= amount.minor)
            && (v == Throws
                <==> sound && (amount.ccy != limit.ccy || (limited && amount.ccy != threshold.ccy)))
            && (v == Reject(ValidationFailed)
                <==> !sound || (amount.ccy == limit.ccy && limit.minor < amount.minor))
  {
    var last := [FraudCheck(threshold)];
    var rest := [LimitCheck(limit)] + last;
    var chain := [BasicCheck, LimitCheck(limit), FraudCheck(threshold)];
    assert last[1..] == [] && rest[1..] == last && chain[1..] == rest;
    assert RunChain(last, payer, payee, amount) == Check(last[0], payer, payee, amount);
    assert RunChain(rest, payer, payee, amount)
        == var v := Check(rest[0], payer, payee, amount);
           if v == Pass then RunChain(last, payer, payee, amount) else v;
  }

  class ValidationChain {
    var handlers: seq<Handler>

    constructor ()
      ensures handlers == []
    {
      handlers := [];
    }

    method Add(h: Handler)
      modifies this
      ensures handlers == old(handlers) + [h]
    {
      handlers := handlers + [h];
    }

    method Run(payer: string, payee: string, amount: Money) returns (v: Verdict)
      ensures v == RunChain(handlers, payer, payee, amount)
    {
      for i := 0 to |handlers|
        invariant RunChain(handlers, payer, payee, amount) == RunChain(handlers[i..], payer, payee, amount)
      {
        v := Check(handlers[i], payer, payee, amount);
        if v != Pass {
          return;
        }
        assert handlers[i..][1..] == handlers[i + 1..];
      }
      assert handlers[|handlers|..] == [];
      v := Pass;
    }
  }
}
