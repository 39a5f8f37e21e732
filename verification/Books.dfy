/** Money across all interleavings: live balances against the journal, conservation, and the int64 range. */
module Books {
  import opened Common
  import opened Lifecycle
  import opened Domain
  import opened Protocol
  import opened ProtocolInvariant
  import L = Ledger

  /** Something every call contributes to, depending on where it stands. */
  datatype Weight =
    | Gap(account: string)       // what the call has done to a live balance but not yet posted
    | Pending(account: string)   // what it has taken from the payer and not yet offered to the payee
    | Transit(ccy: Currency)     // the same, by currency
    | Vanished(ccy: Currency)    // what it took from the payer and the payee's account refused
    | Remaining                  // how many steps it still has to make

  function Weigh(env: Env, inv: Invocation, c: Call, w: Weight): int {
    match w
    case Gap(a) =>
      (if (c.pc.Debited? || c.pc.Credited?) && inv.payer == a then -(inv.amount.minor as int) else 0)
      + (if c.pc.Credited? && inv.payee == a && Accepts(env, inv) then inv.amount.minor else 0)
    case Pending(a) => if c.pc.Debited? && inv.payer == a then inv.amount.minor else 0
    case Transit(ccy) => if c.pc.Debited? && inv.amount.ccy == ccy then inv.amount.minor else 0
    case Vanished(ccy) =>
      if Succeeded(c.pc) && inv.amount.ccy == ccy && !Accepts(env, inv) then inv.amount.minor else 0
    case Remaining => StepsLeft(c)
  }

  /** The payee's account takes the amount's currency. */
  predicate Accepts(env: Env, inv: Invocation) {
    inv.payee in env.opening && env.opening[inv.payee].ccy == inv.amount.ccy
  }

  /** An upper bound on the steps a call still has to make. */
  function StepsLeft(c: Call): nat {
    match c.pc
    case Start => 20
    case Minted => 19
    case Beaten => 2
    case Looking(_) => 1
    case Claimed => 18
    case Waiting => 17
    case Holding => 16
    case Approved => 15
    case Debited => 14
    case Credited => 9 + MintsLeft(c)
    case Unposted(_) => 7
    case Restored(_) => 6
    case Failing(_) => 5
    case Posted => 8
    case Saved(_) => 4
    case Published(_) => 3
    case Unwinding => 1
    case Done(_) => 0
  }

  function MintsLeft(c: Call): nat {
    (if c.debitId.None? then 1 else 0) + (if c.debitSeq.None? then 1 else 0)
    + (if c.creditId.None? then 1 else 0) + (if c.creditSeq.None? then 1 else 0)
  }

  function SumOver(cfg: Config, calls: seq<Call>, w: Weight): int
    requires |calls| <= |cfg.calls|
  {
    if calls == [] then 0
    else
      var n := |calls| - 1;
      SumOver(cfg, calls[..n], w) + Weigh(cfg.env, cfg.calls[n], calls[n], w)
  }

  /** Moving one call changes a sum by what that call's weight changes. */
  lemma {:induction false} SumUpdate(cfg: Config, calls: seq<Call>, i: nat, c: Call, w: Weight)
    requires |calls| <= |cfg.calls| && i < |calls|
    ensures SumOver(cfg, calls[i := c], w)
         == SumOver(cfg, calls, w) - Weigh(cfg.env, cfg.calls[i], calls[i], w) + Weigh(cfg.env, cfg.calls[i], c, w)
  {
    var n := |calls| - 1;
    if i == n {
      assert calls[i := c][..n] == calls[..n];
    } else {
      assert calls[i := c][..n] == calls[..n][i := c];
      SumUpdate(cfg, calls[..n], i, c, w);
    }
  }

  lemma {:induction false} SumZero(cfg: Config, calls: seq<Call>, w: Weight)
    requires |calls| <= |cfg.calls|
    requires forall i :: 0 <= i < |calls| ==> Weigh(cfg.env, cfg.calls[i], calls[i], w) == 0
    ensures SumOver(cfg, calls, w) == 0
  {
    if calls != [] {
      SumZero(cfg, calls[..|calls| - 1], w);
    }
  }

  /** A sum of non-negative weights dominates each of them. */
  lemma {:induction false} SumDominates(cfg: Config, calls: seq<Call>, w: Weight, i: nat)
    requires |calls| <= |cfg.calls| && i <= |calls|
    requires forall j :: 0 <= j < |calls| ==> Weigh(cfg.env, cfg.calls[j], calls[j], w) >= 0
    ensures SumOver(cfg, calls, w) >= 0
    ensures i < |calls| ==> SumOver(cfg, calls, w) >= Weigh(cfg.env, cfg.calls[i], calls[i], w)
  {
    if calls != [] {
      var n := |calls| - 1;
      SumDominates(cfg, calls[..n], w, if i < n then i else 0);
    }
  }

  /** What the journal says about an account, in the account's own currency. */
  function Booked(env: Env, journal: seq<LedgerEntry>, account: string): int
    requires account in env.opening
  {
    L.NetIn(L.EntriesFor(journal, account), env.opening[account].ccy)
  }

  lemma BookedAppend(env: Env, journal: seq<LedgerEntry>, e: LedgerEntry, account: string)
    requires account in env.opening
    ensures Booked(env, journal + [e], account) == Booked(env, journal, account)
      + (if e.account == account && e.amount.ccy == env.opening[account].ccy then SignedMinor(e) else 0)
  {
    var next := journal + [e];
    assert next[..|next| - 1] == journal;
    var lines := L.EntriesFor(journal, account);
    assert (lines + [e])[..|lines|] == lines;
  }

  /** Live balances agree with the journal, up to the calls between their debit and their posting. */
  ghost predicate Agrees(cfg: Config, s: State, a: string)
    requires Sized(cfg, s) && s.g.balances.Keys == cfg.env.opening.Keys && a in cfg.env.opening
  {
    s.g.balances[a] == cfg.env.opening[a].minor + Booked(cfg.env, s.g.journal, a) + SumOver(cfg, s.calls, Gap(a))
  }

  ghost predicate WellFunded(env: Env) {
    forall a :: a in env.opening ==> 0 <= env.opening[a].minor
  }

  ghost predicate Solvent(s: State) {
    forall a :: a in s.g.balances ==> 0 <= s.g.balances[a]
  }

  /** The two steps that move money, the one that records it, and all the others. */
  ghost predicate MoneyMove(env: Env, inv: Invocation, g: Shared, c: Call, g': Shared, c': Call)
    requires AtAccounts(c.pc) ==> HasAccount(env, g, inv.payer) && HasAccount(env, g, inv.payee)
  {
    if c.pc.Approved? && DebitStatus(g.balances[inv.payer], env.opening[inv.payer].ccy, inv.amount).Okay? then
      && g'.balances == g.balances[inv.payer := g.balances[inv.payer] - inv.amount.minor]
      && g'.journal == g.journal
      && c'.pc.Debited?
    else if c.pc.Debited? then
      && g'.balances == AfterCredit(env, g.balances, inv.payee, inv.amount)
      && g'.journal == g.journal
      && c'.pc.Credited?
    else if c.pc.Credited? && AllMinted(c) then
      && g'.balances == g.balances
      && g'.journal == g.journal + [DebitEntry(inv, c), CreditEntry(inv, c)]
      && c'.pc.Posted?
    else
      && g'.balances == g.balances
      && g'.journal == g.journal
      && !c'.pc.Debited?
      && (c.pc.Credited? <==> c'.pc.Credited?)
      && (Succeeded(c.pc) <==> Succeeded(c'.pc))
  }

  lemma StepMovesMoney(env: Env, inv: Invocation, me: nat, g: Shared, c: Call, b: bool)
    requires CanMove(env, inv, g, c) && PathShape(env, inv, c)
    ensures var (g', c') := StepOf(env, inv, me, g, c, b); MoneyMove(env, inv, g, c, g', c')
  {
    hide Gate, Advance, L.PostStatus;
    if c.pc.Credited? {
      CreditedStep(env, inv, me, g, c, b);
    } else if c.pc.Approved? || c.pc.Debited? {
      MoneyMovesAtAccounts(env, inv, me, g, c, b);
    } else {
      MoneyMovesElsewhere(env, inv, me, g, c, b);
    }
  }

  lemma MoneyMovesAtAccounts(env: Env, inv: Invocation, me: nat, g: Shared, c: Call, b: bool)
    requires CanMove(env, inv, g, c) && (c.pc.Approved? || c.pc.Debited?)
    ensures var (g', c') := StepOf(env, inv, me, g, c, b); MoneyMove(env, inv, g, c, g', c')
  {
    hide Gate, Advance, L.PostStatus;
  }

  lemma MoneyMovesElsewhere(env: Env, inv: Invocation, me: nat, g: Shared, c: Call, b: bool)
    requires CanMove(env, inv, g, c) && PathShape(env, inv, c)
    requires !c.pc.Credited? && !c.pc.Approved? && !c.pc.Debited?
    ensures var (g', c') := StepOf(env, inv, me, g, c, b); MoneyMove(env, inv, g, c, g', c')
  {
    hide Gate, Advance, L.PostStatus, TxnOf, EventOf, MintStep, TxnId;
  }

  /** Posting turns the gap into journal lines. */
  lemma PostingBooks(env: Env, inv: Invocation, c: Call, journal: seq<LedgerEntry>, a: string)
    requires AllMinted(c) && PathShape(env, inv, c) && c.pc.Credited? && a in env.opening
    ensures Booked(env, journal + [DebitEntry(inv, c), CreditEntry(inv, c)], a)
         == Booked(env, journal, a) + Weigh(env, inv, c, Gap(a))
  {
    hide Booked, Gate;
    var d, e := DebitEntry(inv, c), CreditEntry(inv, c);
    BookedAppend(env, journal, d, a);
    BookedAppend(env, journal + [d], e, a);
    assert journal + [d, e] == journal + [d] + [e];
  }

  ghost predicate Steady(env: Env, inv: Invocation, g: Shared, c: Call) {
    && PathShape(env, inv, c)
    && g.balances.Keys == env.opening.Keys
    && (AtAccounts(c.pc) ==> HasAccount(env, g, inv.payer) && HasAccount(env, g, inv.payee))
  }

  /** What one step does to an account it does to the account's journal and gap together. */
  lemma AccountStep(env: Env, inv: Invocation, g: Shared, c: Call, g': Shared, c': Call, a: string)
    requires Steady(env, inv, g, c) && MoneyMove(env, inv, g, c, g', c')
    requires a in env.opening
    ensures a in g'.balances
    ensures g'.balances[a] - g.balances[a] == Booked(env, g'.journal, a) - Booked(env, g.journal, a)
                                            + Weigh(env, inv, c', Gap(a)) - Weigh(env, inv, c, Gap(a))
    ensures 0 <= g.balances[a] ==> 0 <= g'.balances[a]
  {
    if c.pc.Credited? && AllMinted(c) {
      PostingBooks(env, inv, c, g.journal, a);
    }
  }

  /** An account some call has just debited is not overdrawn, whatever it opened with. */
  ghost predicate PayersSolvent(cfg: Config, s: State)
    requires Sized(cfg, s)
  {
    forall i :: 0 <= i < |s.calls| && s.calls[i].pc.Debited? ==>
      cfg.calls[i].payer in s.g.balances && 0 <= s.g.balances[cfg.calls[i].payer]
  }

  ghost predicate Sound(cfg: Config, s: State) {
    && Coherent(cfg, s)
    && (forall a :: a in cfg.env.opening ==> Agrees(cfg, s, a))
    && (WellFunded(cfg.env) ==> Solvent(s))
    && PayersSolvent(cfg, s)
  }

  lemma PayersSolventStep(cfg: Config, s: State, s': State, i: nat)
    requires OnlyMoved(cfg, s, s', i) && Shapes(cfg, s') && PayersSolvent(cfg, s)
    requires Steady(cfg.env, cfg.calls[i], s.g, s.calls[i])
    requires MoneyMove(cfg.env, cfg.calls[i], s.g, s.calls[i], s'.g, s'.calls[i])
    ensures PayersSolvent(cfg, s')
  {
    hide Booked, TrailFits, Gate;
    forall j | 0 <= j < |s'.calls| && s'.calls[j].pc.Debited?
      ensures cfg.calls[j].payer in s'.g.balances && 0 <= s'.g.balances[cfg.calls[j].payer]
    {
      assert CallShape(cfg.env, cfg.calls[j], s'.calls[j]);
      if j != i {
        AccountStep(cfg.env, cfg.calls[i], s.g, s.calls[i], s'.g, s'.calls[i], cfg.calls[j].payer);
      }
    }
  }

  lemma SoundStep(cfg: Config, s: State, i: nat, b: bool)
    requires Sound(cfg, s) && Enabled(cfg, s, i)
    ensures Sound(cfg, Next(cfg, s, i, b))
  {
    var s' := Next(cfg, s, i, b);
    assert CallShape(cfg.env, cfg.calls[i], s.calls[i]);
    CoherentStep(cfg, s, i, b);
    StepMovesMoney(cfg.env, cfg.calls[i], i, s.g, s.calls[i], b);
    forall a | a in cfg.env.opening
      ensures Agrees(cfg, s', a)
      ensures WellFunded(cfg.env) ==> 0 <= s'.g.balances[a]
    {
      assert Agrees(cfg, s, a);
      AccountStep(cfg.env, cfg.calls[i], s.g, s.calls[i], s'.g, s'.calls[i], a);
      SumUpdate(cfg, s.calls, i, s'.calls[i], Gap(a));
    }
    PayersSolventStep(cfg, s, s', i);
  }

  lemma SoundInit(cfg: Config)
    ensures Sound(cfg, Init(cfg))
  {
    CoherentInit(cfg);
    forall a | a in cfg.env.opening
      ensures Agrees(cfg, Init(cfg), a)
    {
      SumZero(cfg, Init(cfg).calls, Gap(a));
    }
  }

  lemma {:induction false} AlwaysSound(cfg: Config, sched: seq<Pick>)
    ensures Sound(cfg, Exec(cfg, sched))
  {
    if sched == [] {
      SoundInit(cfg);
    } else {
      var before := Exec(cfg, sched[..|sched| - 1]);
      var p := sched[|sched| - 1];
      AlwaysSound(cfg, sched[..|sched| - 1]);
      if Enabled(cfg, before, p.call) {
        SoundStep(cfg, before, p.call, p.seqFirst);
      }
    }
  }

  /** Nobody is between a debit and the posting that records it. */
  ghost predicate Settled(s: State) {
    forall i :: 0 <= i < |s.calls| ==> !s.calls[i].pc.Debited? && !s.calls[i].pc.Credited?
  }

  /** In every reachable state each live balance is the opening balance, plus what the journal says about the
      account in its own currency, plus what calls have done and not yet posted; when none is in between,
      balance and journal agree exactly. If no account opened overdrawn, no balance is ever negative. */
  lemma BalancesAgreeWithJournal(cfg: Config, s: State, a: string)
    requires Reachable(cfg, s) && a in cfg.env.opening
    ensures && s.g.balances.Keys == cfg.env.opening.Keys
            && s.g.balances[a] == cfg.env.opening[a].minor + Booked(cfg.env, s.g.journal, a)
                                + SumOver(cfg, s.calls, Gap(a))
            && (Settled(s) ==> s.g.balances[a] == cfg.env.opening[a].minor + Booked(cfg.env, s.g.journal, a))
            && (WellFunded(cfg.env) ==> 0 <= s.g.balances[a])
  {
    var sched :| s == Exec(cfg, sched);
    AlwaysSound(cfg, sched);
    assert Agrees(cfg, s, a);
    if Settled(s) {
      SumZero(cfg, s.calls, Gap(a));
    }
  }

  // ----- Conservation -----

  function Total(balances: map<string, int>, names: seq<string>): int
    requires forall k :: 0 <= k < |names| ==> names[k] in balances
  {
    if names == [] then 0 else Total(balances, names[..|names| - 1]) + balances[names[|names| - 1]]
  }

  lemma {:induction false} TotalUpdate(balances: map<string, int>, names: seq<string>, a: string, v: int)
    requires forall k :: 0 <= k < |names| ==> names[k] in balances
    requires Distinct(names) && a in balances
    ensures Total(balances[a := v], names) == Total(balances, names) + (if a in names then v - balances[a] else 0)
  {
    if names != [] {
      var init := names[..|names| - 1];
      var last := names[|names| - 1];
      TotalUpdate(balances, init, a, v);
      assert last !in init;
      assert a in names <==> a in init || a == last;
    }
  }

  lemma {:induction false} TotalDominates(balances: map<string, int>, names: seq<string>, a: string)
    requires forall k :: 0 <= k < |names| ==> names[k] in balances && 0 <= balances[names[k]]
    ensures 0 <= Total(balances, names)
    ensures a in names ==> balances[a] <= Total(balances, names)
  {
    if names != [] {
      TotalDominates(balances, names[..|names| - 1], a);
      assert a in names <==> a in names[..|names| - 1] || a == names[|names| - 1];
    }
  }

  /** A listing, without repetition, of the accounts kept in one currency. */
  ghost predicate Lists(env: Env, names: seq<string>, ccy: Currency) {
    && Distinct(names)
    && (forall a :: a in names <==> a in env.opening && env.opening[a].ccy == ccy)
  }

  /** Money of one currency: in accounts, between the two accounts of a payment, or refused by the payee. */
  ghost predicate Conserved(cfg: Config, s: State, names: seq<string>, ccy: Currency)
    requires Sized(cfg, s) && s.g.balances.Keys == cfg.env.opening.Keys && Lists(cfg.env, names, ccy)
  {
    Total(s.g.balances, names) + SumOver(cfg, s.calls, Transit(ccy)) + SumOver(cfg, s.calls, Vanished(ccy))
    == Total(OpeningBalances(cfg.env), names)
  }

  lemma ConservedStep(env: Env, inv: Invocation, g: Shared, c: Call, g': Shared, c': Call, names: seq<string>,
                      ccy: Currency)
    requires Steady(env, inv, g, c) && MoneyMove(env, inv, g, c, g', c')
    requires Lists(env, names, ccy) && g'.balances.Keys == env.opening.Keys
    ensures Total(g'.balances, names) - Total(g.balances, names)
         == Weigh(env, inv, c, Transit(ccy)) + Weigh(env, inv, c, Vanished(ccy))
          - Weigh(env, inv, c', Transit(ccy)) - Weigh(env, inv, c', Vanished(ccy))
  {
    hide Total, Gate, DebitEntry, CreditEntry;
    if c.pc.Approved? {
      TotalUpdate(g.balances, names, inv.payer, g.balances[inv.payer] - inv.amount.minor);
    } else if c.pc.Debited? {
      TotalUpdate(g.balances, names, inv.payee, g.balances[inv.payee] + inv.amount.minor);
    }
  }

  lemma ConservedInit(cfg: Config, names: seq<string>, ccy: Currency)
    requires Lists(cfg.env, names, ccy)
    ensures Conserved(cfg, Init(cfg), names, ccy)
  {
    SumZero(cfg, Init(cfg).calls, Transit(ccy));
    SumZero(cfg, Init(cfg).calls, Vanished(ccy));
  }

  lemma ConservedNext(cfg: Config, s: State, i: nat, b: bool, names: seq<string>, ccy: Currency)
    requires Sound(cfg, s) && Enabled(cfg, s, i) && Lists(cfg.env, names, ccy) && Conserved(cfg, s, names, ccy)
    ensures Sound(cfg, Next(cfg, s, i, b)) && Conserved(cfg, Next(cfg, s, i, b), names, ccy)
  {
    hide StepOf, Gate, Total, Lists;
    assert CallShape(cfg.env, cfg.calls[i], s.calls[i]);
    var s' := Next(cfg, s, i, b);
    SoundStep(cfg, s, i, b);
    StepMovesMoney(cfg.env, cfg.calls[i], i, s.g, s.calls[i], b);
    ConservedStep(cfg.env, cfg.calls[i], s.g, s.calls[i], s'.g, s'.calls[i], names, ccy);
    SumUpdate(cfg, s.calls, i, s'.calls[i], Transit(ccy));
    SumUpdate(cfg, s.calls, i, s'.calls[i], Vanished(ccy));
  }

  lemma {:induction false} AlwaysConserved(cfg: Config, sched: seq<Pick>, names: seq<string>, ccy: Currency)
    requires Lists(cfg.env, names, ccy)
    ensures Sound(cfg, Exec(cfg, sched))
    ensures Conserved(cfg, Exec(cfg, sched), names, ccy)
  {
    hide Conserved, CanMove, StepOf, Lists;
    AlwaysSound(cfg, sched);
    if sched == [] {
      ConservedInit(cfg, names, ccy);
    } else {
      var before := Exec(cfg, sched[..|sched| - 1]);
      var p := sched[|sched| - 1];
      AlwaysConserved(cfg, sched[..|sched| - 1], names, ccy);
      if Enabled(cfg, before, p.call) {
        AlwaysSound(cfg, sched[..|sched| - 1]);
        ConservedNext(cfg, before, p.call, p.seqFirst, names, ccy);
      }
    }
  }

  /** The weights that stand for money never go below zero. */
  lemma WeightsNonNegative(cfg: Config, s: State, w: Weight)
    requires Coherent(cfg, s) && (w.Pending? || w.Transit? || w.Vanished?)
    ensures forall j :: 0 <= j < |s.calls| ==> Weigh(cfg.env, cfg.calls[j], s.calls[j], w) >= 0
  {
    forall j | 0 <= j < |s.calls|
      ensures Weigh(cfg.env, cfg.calls[j], s.calls[j], w) >= 0
    {
      assert CallShape(cfg.env, cfg.calls[j], s.calls[j]);
    }
  }

  /** A successful payment whose payee account is kept in another currency: the credit is refused, the
      refusal is ignored, and the money is gone from the live balances. */
  ghost predicate LosesMoney(cfg: Config, s: State, ccy: Currency)
    requires Sized(cfg, s)
  {
    exists i :: 0 <= i < |s.calls| && HasLost(cfg, s, i, ccy)
  }

  ghost predicate HasLost(cfg: Config, s: State, i: int, ccy: Currency)
    requires Sized(cfg, s) && 0 <= i < |s.calls|
  {
    && Succeeded(s.calls[i].pc) && cfg.calls[i].amount.ccy == ccy
    && !Accepts(cfg.env, cfg.calls[i]) && cfg.calls[i].amount.minor != 0
  }

  /** Conservation, exactly: balances plus money between accounts never exceed the opening total, and they equal
      it if and only if no successful payment went to an account of another currency. */
  lemma Conservation(cfg: Config, s: State, names: seq<string>, ccy: Currency)
    requires Reachable(cfg, s) && Lists(cfg.env, names, ccy)
    ensures s.g.balances.Keys == cfg.env.opening.Keys
    ensures var held := Total(s.g.balances, names) + SumOver(cfg, s.calls, Transit(ccy));
            && held <= Total(OpeningBalances(cfg.env), names)
            && (held == Total(OpeningBalances(cfg.env), names) <==> !LosesMoney(cfg, s, ccy))
  {
    hide Exec, Gate;
    var sched :| s == Exec(cfg, sched);
    AlwaysConserved(cfg, sched, names, ccy);
    WeightsNonNegative(cfg, s, Vanished(ccy));
    SumDominates(cfg, s.calls, Vanished(ccy), 0);
    if LosesMoney(cfg, s, ccy) {
      var i :| 0 <= i < |s.calls| && HasLost(cfg, s, i, ccy);
      SumDominates(cfg, s.calls, Vanished(ccy), i);
      assert Weigh(cfg.env, cfg.calls[i], s.calls[i], Vanished(ccy)) > 0;
    } else {
      forall j | 0 <= j < |s.calls|
        ensures Weigh(cfg.env, cfg.calls[j], s.calls[j], Vanished(ccy)) == 0
      {
        assert !HasLost(cfg, s, j, ccy);
      }
      SumZero(cfg, s.calls, Vanished(ccy));
    }
  }

  /** Opening balances that are non-negative and total at most 2^63 - 1 in this currency. */
  ghost predicate FundsFit(env: Env, names: seq<string>, ccy: Currency) {
    WellFunded(env) && Lists(env, names, ccy) && Total(OpeningBalances(env), names) <= INT64_MAX
  }

  /** What a call has in transit is part of what all calls have, and its amount is sound. */
  lemma InTransit(cfg: Config, s: State, i: nat)
    requires Reachable(cfg, s) && i < |cfg.calls|
    ensures WellFunded(cfg.env) ==> Solvent(s)
    ensures 0 <= Weigh(cfg.env, cfg.calls[i], s.calls[i], Transit(cfg.calls[i].amount.ccy))
              <= SumOver(cfg, s.calls, Transit(cfg.calls[i].amount.ccy))
    ensures Moved(s.calls[i].pc) ==> 0 <= cfg.calls[i].amount.minor
  {
    hide Exec, Gate, Agrees;
    var sched :| s == Exec(cfg, sched);
    AlwaysSound(cfg, sched);
    WeightsNonNegative(cfg, s, Transit(cfg.calls[i].amount.ccy));
    SumDominates(cfg, s.calls, Transit(cfg.calls[i].amount.ccy), i);
    assert CallShape(cfg.env, cfg.calls[i], s.calls[i]);
  }

  /** With such opening balances no credit any call is about to make overflows, no debit underflows, and no booked
      amount is the one that cannot be negated. */
  lemma NoOverflow(cfg: Config, s: State, i: nat, names: seq<string>)
    requires Reachable(cfg, s) && i < |cfg.calls|
    requires FundsFit(cfg.env, names, cfg.calls[i].amount.ccy)
    ensures var inv := cfg.calls[i];
            && (forall a :: a in names ==> a in s.g.balances && 0 <= s.g.balances[a] <= INT64_MAX)
            && (s.calls[i].pc.Debited? && Accepts(cfg.env, inv) ==>
                  inv.payee in s.g.balances && s.g.balances[inv.payee] + inv.amount.minor <= INT64_MAX)
            && (Moved(s.calls[i].pc) ==> 0 <= inv.amount.minor && InInt64(-(inv.amount.minor as int)))
  {
    hide Exec, Gate, Total, Coherent, SumOver, Agrees, LosesMoney;
    var inv := cfg.calls[i];
    Conservation(cfg, s, names, inv.amount.ccy);
    InTransit(cfg, s, i);
    forall a | a in names
      ensures a in s.g.balances && 0 <= s.g.balances[a]
      ensures s.g.balances[a] <= Total(s.g.balances, names)
    {
      TotalDominates(s.g.balances, names, a);
    }
  }
}
