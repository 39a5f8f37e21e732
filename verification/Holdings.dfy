/** What the accounts of one currency hold together, overdrawn ones counting as empty: the bound under which no
    credit overflows, whatever the accounts open with, and which no payment raises. */
module Holdings {
  import opened Common
  import Validation
  import opened Protocol
  import opened Linearizability

  function Positive(n: int): nat {
    if n < 0 then 0 else n
  }

  /** All the accounts, once each. */
  ghost predicate Accounts(env: Env, names: seq<string>) {
    Distinct(names) && forall a :: a in names <==> a in env.opening
  }

  function Held(env: Env, balances: map<string, int>, names: seq<string>, ccy: Currency): nat
    requires forall k :: 0 <= k < |names| ==> names[k] in balances && names[k] in env.opening
  {
    if names == [] then 0
    else
      var a := names[|names| - 1];
      Held(env, balances, names[..|names| - 1], ccy) + (if env.opening[a].ccy == ccy then Positive(balances[a]) else 0)
  }

  ghost predicate FundsBounded(env: Env, balances: map<string, int>)
    requires balances.Keys == env.opening.Keys
  {
    forall names, ccy :: Accounts(env, names) ==> Held(env, balances, names, ccy) <= INT64_MAX
  }

  /** A finite set as a list. */
  ghost function Listing(s: set<string>): (names: seq<string>)
    ensures Distinct(names) && forall a :: a in names <==> a in s
  {
    if s == {} then []
    else
      var a :| a in s;
      Listing(s - {a}) + [a]
  }

  lemma {:induction false} HeldUpdate(env: Env, balances: map<string, int>, names: seq<string>, ccy: Currency,
                                      a: string, v: int)
    requires forall k :: 0 <= k < |names| ==> names[k] in balances && names[k] in env.opening
    requires Distinct(names) && a in balances && a in env.opening
    ensures Held(env, balances[a := v], names, ccy) == Held(env, balances, names, ccy)
      + (if a in names && env.opening[a].ccy == ccy then Positive(v) - Positive(balances[a]) else 0)
  {
    if names != [] {
      var init, last := names[..|names| - 1], names[|names| - 1];
      HeldUpdate(env, balances, init, ccy, a, v);
      assert last !in init;
      assert a in names <==> a in init || a == last;
    }
  }

  lemma {:induction false} HeldCovers(env: Env, balances: map<string, int>, names: seq<string>, a: string, b: string)
    requires forall k :: 0 <= k < |names| ==> names[k] in balances && names[k] in env.opening
    requires Distinct(names) && a != b && a in env.opening && b in env.opening
    requires env.opening[a].ccy == env.opening[b].ccy
    ensures var held := Held(env, balances, names, env.opening[a].ccy);
            && (a in names ==> Positive(balances[a]) <= held)
            && (b in names ==> Positive(balances[b]) <= held)
            && (a in names && b in names ==> Positive(balances[a]) + Positive(balances[b]) <= held)
  {
    if names != [] {
      var init, last := names[..|names| - 1], names[|names| - 1];
      HeldCovers(env, balances, init, a, b);
      assert last !in init;
      assert a in names <==> a in init || a == last;
      assert b in names <==> b in init || b == last;
    }
  }

  /** Under the bound any two accounts of one currency fit together. */
  lemma PairsFit(env: Env, balances: map<string, int>, a: string, b: string)
    requires balances.Keys == env.opening.Keys && FundsBounded(env, balances)
    requires a in env.opening && b in env.opening && a != b && env.opening[a].ccy == env.opening[b].ccy
    ensures Positive(balances[a]) + Positive(balances[b]) <= INT64_MAX
  {
    var names := Listing(env.opening.Keys);
    assert Accounts(env, names);
    HeldCovers(env, balances, names, a, b);
  }

  lemma PayRaisesNothing(env: Env, balances: map<string, int>, inv: Invocation, names: seq<string>, ccy: Currency)
    requires balances.Keys == env.opening.Keys && Accounts(env, names)
    ensures Held(env, AtomicPay(env, balances, inv).0, names, ccy) <= Held(env, balances, names, ccy)
  {
    hide Held, Validation.RunChain;
    if AtomicPay(env, balances, inv).1.Paid? {
      var debited := AfterDebit(env, balances, inv.payer, inv.amount).1;
      HeldUpdate(env, balances, names, ccy, inv.payer, balances[inv.payer] - inv.amount.minor);
      HeldUpdate(env, debited, names, ccy, inv.payee, debited[inv.payee] + inv.amount.minor);
    }
  }

  /** A payment keeps the bound. */
  lemma PayKeepsFundsBounded(env: Env, balances: map<string, int>, inv: Invocation)
    requires balances.Keys == env.opening.Keys && FundsBounded(env, balances)
    ensures FundsBounded(env, AtomicPay(env, balances, inv).0)
  {
    hide Held, AtomicPay;
    forall names, ccy | Accounts(env, names)
      ensures Held(env, AtomicPay(env, balances, inv).0, names, ccy) <= INT64_MAX
    {
      PayRaisesNothing(env, balances, inv, names, ccy);
    }
  }
}
