/** What a payment answers, does and leaves behind, said of the request itself: its fields, the demands of the
    handlers, the accounts it names. */
module Answers {
  import opened Common
  import opened Lifecycle
  import opened Domain
  import opened Validation
  import opened Protocol
  import opened ProtocolInvariant
  import opened Linearizability
  import opened Histories
  import opened Guarantees
  import opened Alone

  // ----- The answer -----

  predicate Named(inv: Invocation) {
    inv.payer != "" && inv.payee != ""
  }

  ghost predicate Cleared(env: Env, inv: Invocation) {
    forall h :: h in env.chain ==> Clears(h, inv.payer, inv.payee, inv.amount)
  }

  /** The k-th handler is the first whose demands the request does not meet. */
  ghost predicate FirstObjection(env: Env, inv: Invocation, k: nat) {
    && k < |env.chain| && !Clears(env.chain[k], inv.payer, inv.payee, inv.amount)
    && forall j :: 0 <= j < k ==> Clears(env.chain[j], inv.payer, inv.payee, inv.amount)
  }

  /** What the caller hears from an objecting handler. */
  function Objection(h: Handler, amount: Money): Outcome {
    match h
    case BasicCheck => Refused(ValidationFailed)
    case LimitCheck(limit) => if amount.ccy != limit.ccy then Threw else Refused(ValidationFailed)
    case FraudCheck(threshold) => if amount.ccy != threshold.ccy then Threw else Refused(FraudRejected)
  }

  /** What a request gets that no handler objects to. */
  function Settlement(env: Env, balances: map<string, int>, inv: Invocation): Outcome
    requires balances.Keys == env.opening.Keys
  {
    if inv.payer !in env.opening || inv.payee !in env.opening then Refused(AccountNotFound)
    else if inv.amount.ccy != env.opening[inv.payer].ccy || inv.amount.minor < 0 then Refused(ValidationFailed)
    else if balances[inv.payer] < inv.amount.minor then Refused(InsufficientFunds)
    else Paid
  }

  lemma {:induction false} SomeFirstObjection(env: Env, inv: Invocation, n: nat) returns (k: nat)
    requires n <= |env.chain|
    requires exists j :: 0 <= j < n && !Clears(env.chain[j], inv.payer, inv.payee, inv.amount)
    ensures k < n && FirstObjection(env, inv, k)
  {
    k := n - 1;
    if exists j :: 0 <= j < n - 1 && !Clears(env.chain[j], inv.payer, inv.payee, inv.amount) {
      k := SomeFirstObjection(env, inv, n - 1);
    }
  }

  /** Every request is of exactly one kind: nameless, objected to by a first handler, or cleared by all. */
  lemma KindsOfRequest(env: Env, inv: Invocation)
    ensures Cleared(env, inv) <==> !exists k: nat :: FirstObjection(env, inv, k)
  {
    if Cleared(env, inv) {
      assert forall k: nat :: k < |env.chain| ==> env.chain[k] in env.chain;
    } else {
      var h :| h in env.chain && !Clears(h, inv.payer, inv.payee, inv.amount);
      var i :| 0 <= i < |env.chain| && env.chain[i] == h;
      var k := SomeFirstObjection(env, inv, |env.chain|);
    }
  }

  lemma GateObjects(env: Env, inv: Invocation, k: nat)
    requires FirstObjection(env, inv, k)
    ensures Gate(env, inv) == match Objection(env.chain[k], inv.amount)
                              case Refused(code) => Reject(code)
                              case _ => Throws
  {
    hide RunChain, Check;
    forall j | 0 <= j <= k
      ensures Check(env.chain[j], inv.payer, inv.payee, inv.amount) == Pass <==> j != k
    {
      HandlerAnswers(env.chain[j], inv.payer, inv.payee, inv.amount);
    }
    HandlerAnswers(env.chain[k], inv.payer, inv.payee, inv.amount);
    FirstObjectionWins(env.chain, inv.payer, inv.payee, inv.amount, k);
  }

  lemma GateClears(env: Env, inv: Invocation)
    ensures Gate(env, inv) == Pass <==> Cleared(env, inv) && inv.payer in env.opening && inv.payee in env.opening
    ensures Cleared(env, inv) && Gate(env, inv) != Pass ==> Gate(env, inv) == Reject(AccountNotFound)
  {
    hide RunChain;
    ChainPasses(env.chain, inv.payer, inv.payee, inv.amount);
  }

  /** The answer to a request that meets these balances, case by case. */
  ghost predicate AnsweredAt(env: Env, balances: map<string, int>, inv: Invocation, out: Outcome)
    requires balances.Keys == env.opening.Keys
  {
    && (!Named(inv) ==> out == Threw)
    && (Named(inv) ==>
          forall k: nat :: FirstObjection(env, inv, k) ==> out == Objection(env.chain[k], inv.amount))
    && (Named(inv) && Cleared(env, inv) ==> out == Settlement(env, balances, inv))
  }

  /** The answer of an atomic payment; nothing moves unless it is Paid. */
  lemma PaymentAnswers(env: Env, balances: map<string, int>, inv: Invocation)
    requires balances.Keys == env.opening.Keys
    ensures var (after, out) := AtomicPay(env, balances, inv);
            AnsweredAt(env, balances, inv, out) && (out != Paid ==> after == balances)
  {
    hide Gate, AfterCredit;
    if Named(inv) {
      forall k: nat | FirstObjection(env, inv, k)
        ensures AtomicPay(env, balances, inv).1 == Objection(env.chain[k], inv.amount)
      {
        GateObjects(env, inv, k);
      }
      GateClears(env, inv);
    }
  }

  /** What a successful payment does to the balance of any account. */
  lemma PaymentMoves(env: Env, balances: map<string, int>, inv: Invocation, a: string)
    requires balances.Keys == env.opening.Keys && a in balances
    requires AtomicPay(env, balances, inv).1 == Paid
    ensures inv.payer in env.opening && inv.payee in env.opening
    ensures AtomicPay(env, balances, inv).0[a] == balances[a]
      - (if a == inv.payer then inv.amount.minor else 0)
      + (if a == inv.payee && env.opening[inv.payee].ccy == inv.amount.ccy then inv.amount.minor else 0)
  {
    hide RunChain;
  }

  /** An undisturbed call with a new key is answered so, and keeps what its answer calls for. */
  lemma UndisturbedAnswers(env: Env, inv: Invocation, me: nat, g: Shared)
    requires Fresh(env, inv, g)
    ensures var (g', c) := RunFrom(env, inv, me, g, FRESH);
            && c.pc.Done? && AnsweredAt(env, g.balances, inv, c.pc.out)
            && (c.pc.out != Paid ==> g'.balances == g.balances && g'.journal == g.journal)
            && (c.pc.out == Threw ==> g'.txns == g.txns && g'.events == g.events)
  {
    hide RunFrom, AtomicPay, AnsweredAt;
    AloneIsAtomic(env, inv, me, g);
    PaymentAnswers(env, g.balances, inv);
  }

  // ----- The answer under interference -----

  /** What a finished call that won its key was answered, whatever went on around it. */
  ghost predicate Answered(env: Env, inv: Invocation, out: Outcome) {
    && (!Named(inv) ==> out == Threw)
    && (Named(inv) ==>
          forall k: nat :: FirstObjection(env, inv, k) ==> out == Objection(env.chain[k], inv.amount))
    && (Named(inv) && Cleared(env, inv) ==>
          if inv.payer !in env.opening || inv.payee !in env.opening then out == Refused(AccountNotFound)
          else if inv.amount.ccy != env.opening[inv.payer].ccy || inv.amount.minor < 0 then
            out == Refused(ValidationFailed)
          else out == Paid || out == Refused(InsufficientFunds))
  }

  /** In every interleaving a winner's answer is the one its request calls for, and between a payment and a refusal
      for lack of funds the balance of the payer in the sequential run decides. */
  lemma AnswersUnderInterference(cfg: Config, s: State, k: nat)
    requires Reachable(cfg, s) && k < |s.h.decided|
    ensures OrderFits(cfg, s) && Decision(s.calls[s.h.decided[k]].pc).Some?
    ensures var inv, out := cfg.calls[s.h.decided[k]], Decision(s.calls[s.h.decided[k]].pc).value;
            var balances := Replay(cfg, s.h.decided[..k]);
            && Answered(cfg.env, inv, out)
            && (out == Paid || out == Refused(InsufficientFunds) ==>
                  inv.payer in balances && (out == Paid <==> inv.amount.minor <= balances[inv.payer]))
  {
    hide Exec, AtomicPay, Replay, FirstObjection, Cleared;
    Linearizable(cfg, s);
    var inv := cfg.calls[s.h.decided[k]];
    assert Decision(s.calls[s.h.decided[k]].pc) == Some(Answer(cfg, s.h.decided, k));
    PaymentAnswers(cfg.env, Replay(cfg, s.h.decided[..k]), inv);
    KindsOfRequest(cfg.env, inv);
  }

  /** Every finished winner has decided. */
  lemma WinnersDecide(cfg: Config, s: State, i: nat)
    requires Reachable(cfg, s) && i < |s.calls| && s.calls[i].pc.Done? && Winner(s.calls[i].pc)
    ensures Decision(s.calls[i].pc) == Some(s.calls[i].pc.out)
    ensures i in s.h.decided && Answered(cfg.env, cfg.calls[i], s.calls[i].pc.out)
  {
    hide Exec, Answered, Replay;
    Linearizable(cfg, s);
    assert Decision(s.calls[i].pc) == Some(s.calls[i].pc.out);
    var k :| 0 <= k < |s.h.decided| && s.h.decided[k] == i;
    AnswersUnderInterference(cfg, s, k);
  }

  /** In every reachable state money that has moved had been checked by every handler: it is between two named
      accounts that exist, not negative, and in the currency of the payer. */
  lemma MovedMoneyWasCleared(cfg: Config, s: State, i: nat)
    requires Reachable(cfg, s) && i < |s.calls| && Moved(s.calls[i].pc)
    ensures var inv := cfg.calls[i];
            && Named(inv) && Cleared(cfg.env, inv)
            && inv.payer in cfg.env.opening && inv.payee in cfg.env.opening
            && 0 <= inv.amount.minor && inv.amount.ccy == cfg.env.opening[inv.payer].ccy
  {
    hide Exec, Gate, Cleared;
    var sched :| s == Exec(cfg, sched);
    AlwaysCoherent(cfg, sched);
    assert CallShape(cfg.env, cfg.calls[i], s.calls[i]);
    GateClears(cfg.env, cfg.calls[i]);
  }

  /** With the shipped handlers: positive, within the limit, below the threshold, between different accounts. */
  lemma ShippedChainGuards(cfg: Config, s: State, i: nat, limit: Money, threshold: Money)
    requires Reachable(cfg, s) && i < |s.calls| && Moved(s.calls[i].pc)
    requires cfg.env.chain == [BasicCheck, LimitCheck(limit), FraudCheck(threshold)]
    ensures var inv := cfg.calls[i];
            && 0 < inv.amount.minor <= limit.minor && inv.amount.minor < threshold.minor
            && inv.payer != inv.payee && inv.amount.ccy == limit.ccy == threshold.ccy
  {
    hide Exec;
    MovedMoneyWasCleared(cfg, s, i);
    assert cfg.env.chain[0] == BasicCheck && cfg.env.chain[1] == LimitCheck(limit)
        && cfg.env.chain[2] == FraudCheck(threshold);
    assert forall k :: 0 <= k < 3 ==> cfg.env.chain[k] in cfg.env.chain;
  }

  // ----- What is kept of a request -----

  /** The transaction is the request's, field by field. */
  predicate IsRequests(t: Transaction, inv: Invocation) {
    && t.idempotencyKey == inv.key
    && t.payer == inv.payer
    && t.payee == inv.payee
    && t.amount == inv.amount
    && t.paymentMethod == inv.paymentMethod
    && t.createdAt == inv.now
  }

  lemma TxnIsRequests(inv: Invocation, c: Call)
    ensures IsRequests(TxnOf(inv, c), inv) && TxnOf(inv, c).id == TxnId(c.num)
  {
  }

  /** A saved transaction is filed under the id its call minted, is the request's in every field, and is CAPTURED
      exactly if the call was paid, else FAILED. */
  lemma StoredTransactionIsRequests(cfg: Config, s: State, i: nat)
    requires Reachable(cfg, s) && i < |s.calls| && Stored(s.calls[i].pc)
    ensures TxnId(s.calls[i].num) in s.g.txns
    ensures var t := s.g.txns[TxnId(s.calls[i].num)];
            && t.id == TxnId(s.calls[i].num) && IsRequests(t, cfg.calls[i])
            && t.status == if s.calls[i].pc.out.Paid? then Captured else Failed
  {
    hide Exec, TxnOf;
    var sched :| s == Exec(cfg, sched);
    AlwaysCoherent(cfg, sched);
    assert Holds(s.g, TxnId(s.calls[i].num), TxnOf(cfg.calls[i], s.calls[i]));
    TxnIsRequests(cfg.calls[i], s.calls[i]);
    StoredStatus(cfg, s, i);
  }

  lemma StoredStatus(cfg: Config, s: State, i: nat)
    requires Coherent(cfg, s) && i < |s.calls| && Stored(s.calls[i].pc)
    ensures TxnOf(cfg.calls[i], s.calls[i]).status == if s.calls[i].pc.out.Paid? then Captured else Failed
  {
    assert CallShape(cfg.env, cfg.calls[i], s.calls[i]);
    LegalLifecycleFrom(cfg.env, cfg.calls[i], s.calls[i]);
  }

  /** And nothing else is in the repository. */
  lemma OnlyRequestsAreStored(cfg: Config, s: State, id: string) returns (i: nat)
    requires Reachable(cfg, s) && id in s.g.txns
    ensures i < |s.calls| && Stored(s.calls[i].pc) && id == TxnId(s.calls[i].num)
    ensures IsRequests(s.g.txns[id], cfg.calls[i])
  {
    hide Exec, TxnOf;
    var sched :| s == Exec(cfg, sched);
    AlwaysCoherent(cfg, sched);
    i := s.h.minter[id];
    MinterMinted(cfg, s, id);
    StoredTransactionIsRequests(cfg, s, i);
  }

  lemma MinterMinted(cfg: Config, s: State, id: string)
    requires Coherent(cfg, s) && id in s.h.minter
    ensures s.h.minter[id] < |s.calls| && id == TxnId(s.calls[s.h.minter[id]].num)
  {
  }

  /** A replayed answer is the request of the call that won the key: same key, and every field the winner's. */
  lemma ReplayIsWinnersRequest(cfg: Config, s: State, i: nat)
    requires Reachable(cfg, s) && i < |s.calls| && s.calls[i].pc.Done? && s.calls[i].pc.out.Replayed?
    ensures cfg.calls[i].key in s.h.owner
    ensures var w, t := s.h.owner[cfg.calls[i].key], s.calls[i].pc.out.txn;
            && w < |s.calls| && Winner(s.calls[w].pc) && cfg.calls[w].key == cfg.calls[i].key
            && IsRequests(t, cfg.calls[w]) && t.id == TxnId(s.calls[w].num)
            && t.status in {Captured, Failed}
  {
    hide Exec, TxnOf;
    LosersReplay(cfg, s, i);
    TxnIsRequests(cfg.calls[s.h.owner[cfg.calls[i].key]], s.calls[s.h.owner[cfg.calls[i].key]]);
  }

  /** A paid call's two journal lines. */
  ghost predicate LinesOf(journal: seq<LedgerEntry>, m: int, id: string, inv: Invocation) {
    && 0 <= m < |journal| - 1
    && var d, c := journal[m], journal[m + 1];
       && d.txnId == id && d.account == inv.payer && d.direction == Debit && d.amount == inv.amount
       && c.txnId == id && c.account == inv.payee && c.direction == Credit && c.amount == inv.amount
  }

  /** Every paid call has its two lines, next to each other. */
  lemma PaidCallsArePosted(cfg: Config, s: State, i: nat)
    requires Reachable(cfg, s) && i < |s.calls| && s.calls[i].pc == Done(Paid)
    ensures exists m :: LinesOf(s.g.journal, m, TxnId(s.calls[i].num), cfg.calls[i])
  {
    hide Exec, Coherent;
    var sched :| s == Exec(cfg, sched);
    AlwaysChronicle(cfg, sched);
    var k :| 0 <= k < |s.h.posted| && s.h.posted[k] == i;
    assert PairAt(cfg, s, k);
    assert LinesOf(s.g.journal, 2 * k, TxnId(s.calls[i].num), cfg.calls[i]);
  }

  /** And every line of the journal is one of them. */
  lemma LinesArePaidCalls(cfg: Config, s: State, m: nat) returns (i: nat)
    requires Reachable(cfg, s) && m < |s.g.journal|
    ensures i < |s.calls| && Moved(s.calls[i].pc)
    ensures LinesOf(s.g.journal, m - m % 2, TxnId(s.calls[i].num), cfg.calls[i])
  {
    hide Exec, Coherent;
    var sched :| s == Exec(cfg, sched);
    AlwaysChronicle(cfg, sched);
    var k := m / 2;
    assert PairAt(cfg, s, k);
    assert m - m % 2 == 2 * k;
    i := s.h.posted[k];
  }

  /** Every finished call that stored a transaction is announced, with its id, its kind and its time. */
  lemma FinishedCallsAreAnnounced(cfg: Config, s: State, i: nat)
    requires Reachable(cfg, s) && i < |s.calls| && s.calls[i].pc.Done?
    requires s.calls[i].pc.out.Paid? || s.calls[i].pc.out.Refused?
    ensures var kind := if s.calls[i].pc.out.Paid? then PaymentCaptured else PaymentFailed;
            DomainEvent(kind, TxnId(s.calls[i].num), cfg.calls[i].now) in s.g.events
  {
    hide Exec, Coherent;
    var sched :| s == Exec(cfg, sched);
    AlwaysChronicle(cfg, sched);
    var k :| 0 <= k < |s.h.logged| && s.h.logged[k] == Logged(i, s.calls[i].pc.out.Paid?);
    assert EventAt(cfg, s, k);
  }

  // ----- What compensation would undo -----

  /** The branch for a rejected posting, although never taken, is made to undo the transfer. With nobody in between
      it does if and only if the payee is the payer, or nothing was paid, or the account of the payee had not taken
      the money, or had not been overdrawn before. */
  lemma CompensationRestores(env: Env, balances: map<string, int>, inv: Invocation)
    requires balances.Keys == env.opening.Keys && inv.payer in balances && inv.payee in balances
    requires AfterDebit(env, balances, inv.payer, inv.amount).0.Okay?
    ensures var moved := AfterCredit(env, AfterDebit(env, balances, inv.payer, inv.amount).1, inv.payee, inv.amount);
            var back := AfterDebit(env, AfterCredit(env, moved, inv.payer, inv.amount), inv.payee, inv.amount).1;
            var untaken := inv.amount.minor == 0 || env.opening[inv.payee].ccy != inv.amount.ccy;
            back == balances <==> inv.payer == inv.payee || untaken || 0 <= balances[inv.payee]
  {
    var moved := AfterCredit(env, AfterDebit(env, balances, inv.payer, inv.amount).1, inv.payee, inv.amount);
    var back := AfterDebit(env, AfterCredit(env, moved, inv.payer, inv.amount), inv.payee, inv.amount).1;
    assert back.Keys == balances.Keys;
    assert forall a :: a in balances && a != inv.payer && a != inv.payee ==> back[a] == balances[a];
    assert back == balances <==> back[inv.payer] == balances[inv.payer] && back[inv.payee] == balances[inv.payee];
  }

  /** The two steps of that branch, and where they lead. */
  lemma CompensationSteps(env: Env, inv: Invocation, me: nat, g: Shared, c: Call, b: bool)
    requires c.pc.Unposted? && CanMove(env, inv, g, c) && StatusOf(c) == Authorized
    ensures var (g', c') := StepOf(env, inv, me, g, c, b);
            && g' == g.(balances := AfterCredit(env, g.balances, inv.payer, inv.amount))
            && CanMove(env, inv, g', c')
            && var (g'', c'') := StepOf(env, inv, me, g', c', b);
               && g'' == g'.(balances := AfterDebit(env, g'.balances, inv.payee, inv.amount).1)
               && c''.pc == Failing(c.pc.code) && StatusOf(c'') == Failed
  {
    assert CanTransition(Authorized, Failed);
  }
}
