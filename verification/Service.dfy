/** The payment service itself, as the sequential code of one caller over its injected adapters. */
module Service {
  import opened Common
  import opened Lifecycle
  import opened Domain
  import opened Validation
  import opened Protocol
  import opened ProtocolInvariant
  import opened Linearizability
  import opened Alone
  import opened Holdings
  import opened Ledger
  import opened Stores

  class PaymentService {
    const accounts: map<string, Account>
    const idempotency: InMemoryIdempotencyStore
    const transactions: InMemoryTransactionRepository
    const ledger: InMemoryLedgerRepository
    const events: InMemoryEventPublisher
    const locks: InMemoryDistributedLock
    const validation: ValidationChain
    const txnIds: IdGenerator
    const entryIds: IdGenerator
    var seqNo: nat
    ghost const opening: map<string, Money>

    /** Accounts are registered under their own ids, so different ids are different accounts. */
    ghost predicate Valid()
      reads this, accounts.Values, txnIds, entryIds
    {
      && txnIds != entryIds && txnIds.prefix == "txn" && entryIds.prefix == "le"
      && opening.Keys == accounts.Keys
      && (forall a :: a in accounts ==>
            accounts[a].id == a && accounts[a].ccy == opening[a].ccy)
    }

    /** If the debit and the credit of this request are both going to be accepted, the credit does not overflow. */
    ghost predicate CreditFits(inv: Invocation)
      reads this, accounts.Values
    {
      && inv.payer in accounts && inv.payee in accounts && inv.payer != inv.payee
      && DebitStatus(accounts[inv.payer].balance, accounts[inv.payer].ccy, inv.amount).Okay?
      && CreditStatus(accounts[inv.payee].ccy, inv.amount).Okay?
      ==> accounts[inv.payee].balance as int + inv.amount.minor as int <= INT64_MAX
    }

    /** The same if the request gets that far. */
    ghost predicate PaymentFits(inv: Invocation)
      reads this, accounts.Values, validation
    {
      Buildable(inv) && Gate(TheEnv(), inv).Pass? ==> CreditFits(inv)
    }

    /** No currency holds more than fits. */
    ghost predicate Bounded()
      requires Valid()
      reads this, accounts.Values, txnIds, entryIds, validation
    {
      FundsBounded(TheEnv(), Balances())
    }

    /** Then every payment fits. */
    lemma BoundedFits(inv: Invocation)
      requires Valid() && Bounded()
      ensures PaymentFits(inv)
    {
      if inv.payer in accounts && inv.payee in accounts && inv.payer != inv.payee
         && accounts[inv.payer].ccy == accounts[inv.payee].ccy {
        PairsFit(TheEnv(), Balances(), inv.payer, inv.payee);
      }
    }

    /** The 64-bit counter of entry ids has room for one more posting. */
    ghost predicate CountersFit()
      reads this, entryIds
    {
      entryIds.counter + 2 < UINT64_COUNT
    }

    ghost function Balances(): map<string, int>
      reads this, accounts.Values
    {
      map a | a in accounts :: accounts[a].balance as int
    }

    /** The stores as the step machine sees them. */
    ghost function View(): Shared
      reads this, accounts.Values, idempotency, transactions, ledger, events, locks, txnIds, entryIds
    {
      Shared(Balances(), idempotency.store, locks.locks, transactions.store, ledger.entries, events.log,
             txnIds.counter, entryIds.counter, seqNo)
    }

    ghost function TheEnv(): Env
      reads this, validation
    {
      Env(opening, validation.handlers)
    }

    constructor (accounts: map<string, Account>, idempotency: InMemoryIdempotencyStore,
                 transactions: InMemoryTransactionRepository, ledger: InMemoryLedgerRepository,
                 events: InMemoryEventPublisher, locks: InMemoryDistributedLock, validation: ValidationChain)
      requires forall a :: a in accounts ==> accounts[a].id == a
      ensures Valid() && fresh(txnIds) && fresh(entryIds)
      ensures this.accounts == accounts && this.validation == validation
      ensures View() == Shared(Balances(), idempotency.store, locks.locks, transactions.store, ledger.entries,
                               events.log, 1, 1, 1)
      ensures OpeningBalances(TheEnv()) == Balances()
    {
      this.accounts := accounts;
      this.idempotency := idempotency;
      this.transactions := transactions;
      this.ledger := ledger;
      this.events := events;
      this.locks := locks;
      this.validation := validation;
      this.txnIds := new IdGenerator("txn", 1);
      this.entryIds := new IdGenerator("le", 1);
      this.seqNo := 1;
      this.opening := map a | a in accounts :: Money(accounts[a].balance, accounts[a].ccy);
    }

    method DebitAccount(account: string, amount: Money) returns (s: Status)
      requires Valid() && account in accounts
      modifies accounts[account]
      ensures Valid()
      ensures Balances() == AfterDebit(TheEnv(), old(Balances()), account, amount).1
      ensures s == AfterDebit(TheEnv(), old(Balances()), account, amount).0
    {
      s := accounts[account].Debit(amount);
      assert forall a :: a in accounts && a != account ==> accounts[a] != accounts[account];
    }

    method CreditAccount(account: string, amount: Money) returns (s: Status)
      requires Valid() && account in accounts
      requires CreditStatus(accounts[account].ccy, amount).Okay? ==>
        accounts[account].balance as int + amount.minor as int <= INT64_MAX
      modifies accounts[account]
      ensures Valid()
      ensures Balances() == AfterCredit(TheEnv(), old(Balances()), account, amount)
    {
      s := accounts[account].Credit(amount);
      assert forall a :: a in accounts && a != account ==> accounts[a] != accounts[account];
    }

    /** Change the status if the transition table allows it. */
    static method AdvanceStatus(txn: Transaction, to: TxnStatus) returns (r: Transaction)
      ensures r == if CanTransition(txn.status, to) then txn.(status := to) else txn
    {
      r := txn;
      if CanTransition(txn.status, to) {
        r := txn.(status := to);
      }
    }

    method Publish(txn: Transaction, kind: EventKind)
      modifies events
      ensures events.log == old(events.log) + [DomainEvent(kind, txn.id, txn.createdAt)]
    {
      events.Publish(DomainEvent(kind, txn.id, txn.createdAt));
    }

    /** The stores after a failed payment whose lock is still held. */
    static function FailedView(txn: Transaction, g: Shared): Shared {
      g.(txns := g.txns[txn.id := txn.(status := Failed)],
         events := g.events + [DomainEvent(PaymentFailed, txn.id, txn.createdAt)])
    }

    /** Mark the transaction failed, save it, announce it. */
    method Fail(txn: Transaction, code: ErrorCode) returns (out: Outcome)
      requires CanTransition(txn.status, Failed)
      modifies transactions, events
      ensures Balances() == old(Balances())
      ensures View() == FailedView(txn, old(View()))
      ensures out == Refused(code)
    {
      var failed := AdvanceStatus(txn, Failed);
      transactions.Save(failed);
      Publish(failed, PaymentFailed);
      out := Refused(code);
    }

    /** Put the two balances back. */
    method Compensate(inv: Invocation)
      requires Valid() && inv.payer in accounts && inv.payee in accounts
      requires accounts[inv.payer].balance as int + inv.amount.minor as int <= INT64_MAX
      modifies accounts.Values
      ensures Valid()
      ensures Balances() == AfterDebit(TheEnv(), AfterCredit(TheEnv(), old(Balances()), inv.payer, inv.amount),
                                       inv.payee, inv.amount).1
    {
      var credited := CreditAccount(inv.payer, inv.amount);
      var debited := DebitAccount(inv.payee, inv.amount);
    }

    /** Mark the transaction captured, save it, announce it. */
    method Capture(txn: Transaction) returns (out: Outcome)
      requires txn.status == Authorized
      modifies transactions, events
      ensures transactions.store == old(transactions.store)[txn.id := txn.(status := Captured)]
      ensures events.log == old(events.log) + [DomainEvent(PaymentCaptured, txn.id, txn.createdAt)]
      ensures out == Paid
    {
      var captured := AdvanceStatus(txn, Captured);
      transactions.Save(captured);
      Publish(captured, PaymentCaptured);
      out := Paid;
    }

    /** Offer a posting to the ledger. If it is accepted the payment is captured; if the ledger rejects it the two
        balances are put back and the payment fails. */
    method Commit(batch: seq<LedgerEntry>, inv: Invocation, txn: Transaction) returns (out: Outcome)
      requires Valid() && SumsFit(batch)
      requires inv.payer in accounts && inv.payee in accounts
      requires PostStatus(batch).Fail? ==>
        accounts[inv.payer].balance as int + inv.amount.minor as int <= INT64_MAX
      requires txn.status == Authorized
      modifies accounts.Values, ledger, transactions, events
      ensures Valid()
      ensures out == if PostStatus(batch).Okay? then Paid else Refused(PostStatus(batch).code)
      ensures ledger.entries == if out.Paid? then old(ledger.entries) + batch else old(ledger.entries)
      ensures Balances() == if out.Paid? then old(Balances()) else
        AfterDebit(TheEnv(), AfterCredit(TheEnv(), old(Balances()), inv.payer, inv.amount), inv.payee, inv.amount).1
      ensures transactions.store
           == old(transactions.store)[txn.id := txn.(status := if out.Paid? then Captured else Failed)]
      ensures events.log == old(events.log)
        + [DomainEvent(if out.Paid? then PaymentCaptured else PaymentFailed, txn.id, txn.createdAt)]
    {
      hide AfterDebit, AfterCredit, SumsFit, PostStatus;
      ghost var before := Balances();
      var p := ledger.Post(batch);
      assert Balances() == before;
      if p.Fail? {
        Compensate(inv);
        out := Fail(txn, p.code);
        return;
      }
      out := Capture(txn);
      assert Balances() == before;
    }

    /** The balanced pair of a payment, with freshly minted ids and sequence numbers. */
    method MintEntries(inv: Invocation, txnId: string) returns (batch: seq<LedgerEntry>)
      requires txnIds != entryIds && entryIds.prefix == "le" && CountersFit()
      modifies entryIds, this`seqNo
      ensures entryIds.counter == old(entryIds.counter) + 2 && seqNo == old(seqNo) + 2
      ensures batch == [
        LedgerEntry(EntryId(old(entryIds.counter)), txnId, inv.payer, Debit, inv.amount, old(seqNo)),
        LedgerEntry(EntryId(old(entryIds.counter) + 1), txnId, inv.payee, Credit, inv.amount, old(seqNo) + 1)]
    {
      var debitId := entryIds.Next();
      var debitSeq := seqNo;
      seqNo := seqNo + 1;
      var creditId := entryIds.Next();
      var creditSeq := seqNo;
      seqNo := seqNo + 1;
      batch := [LedgerEntry(debitId, txnId, inv.payer, Debit, inv.amount, debitSeq),
                LedgerEntry(creditId, txnId, inv.payee, Credit, inv.amount, creditSeq)];
    }

    /** From the credit on: mint the two entries and offer the posting. */
    method PostEntries(inv: Invocation, txn: Transaction, me: nat, ghost num: nat) returns (out: Outcome)
      requires Valid() && CountersFit()
      requires inv.payer in accounts && inv.payee in accounts && 0 <= inv.amount.minor
      requires txn == TxnOf(inv, At(Credited, num, [Initiated, Authorized]))
      modifies accounts.Values, ledger, transactions, events, entryIds, this`seqNo
      ensures Valid() && Balances() == old(Balances())
      ensures out == Paid
      ensures View() == CapturedView(inv, txn, num, old(View()))
    {
      hide SumsFit, PostStatus, AfterDebit, AfterCredit, EntryId, TxnId;
      ghost var c := WithEntries(At(Credited, num, [Initiated, Authorized]), View());
      ghost var before := Balances();
      var batch := MintEntries(inv, txn.id);
      assert batch == [DebitEntry(inv, c), CreditEntry(inv, c)];
      PostingAccepted(inv, c);
      PostingFits(inv, c);
      assert Balances() == before;
      out := Commit(batch, inv, txn);
    }

    /** The stores after a captured payment whose lock is still held. */
    static function CapturedView(inv: Invocation, txn: Transaction, num: nat, g: Shared): Shared {
      PostedLines(inv, g, At(Credited, num, [Initiated, Authorized])).(
        txns := g.txns[txn.id := txn.(status := Captured)],
        events := g.events + [DomainEvent(PaymentCaptured, txn.id, txn.createdAt)])
    }

    /** The call, standing at `c`, runs to the present state but for the lock its caller still holds. */
    ghost predicate Finishes(inv: Invocation, me: nat, env: Env, g: Shared, c: Call, out: Outcome)
      reads this, accounts.Values, idempotency, transactions, ledger, events, locks, txnIds, entryIds
    {
      var r := RunFrom(env, inv, me, g, c);
      r.0 == Unlocked(inv, View()) && r.1.pc == Done(out)
    }

    /** The call, standing at `c`, runs to the present state and is done. */
    ghost predicate Ends(inv: Invocation, me: nat, env: Env, g: Shared, c: Call, out: Outcome)
      reads this, accounts.Values, idempotency, transactions, ledger, events, locks, txnIds, entryIds
    {
      var r := RunFrom(env, inv, me, g, c);
      r.0 == View() && r.1.pc == Done(out)
    }

    /** Debit the payer and, if that is accepted, credit the payee; what the credit answers is ignored. */
    method Transfer(inv: Invocation) returns (d: Status)
      requires Valid() && CreditFits(inv)
      requires inv.payer in accounts && inv.payee in accounts
      modifies accounts.Values
      ensures Valid()
      ensures d == AfterDebit(TheEnv(), old(Balances()), inv.payer, inv.amount).0
      ensures d.Okay? ==> 0 <= inv.amount.minor
      ensures Balances() == if d.Fail? then old(Balances()) else
        AfterCredit(TheEnv(), AfterDebit(TheEnv(), old(Balances()), inv.payer, inv.amount).1, inv.payee, inv.amount)
    {
      d := DebitAccount(inv.payer, inv.amount);
      if d.Okay? {
        ghost var before := old(accounts[inv.payer].balance) as int;
        assert accounts[inv.payer].balance as int == before - inv.amount.minor as int by {
          assert Balances()[inv.payer] == old(Balances())[inv.payer] - inv.amount.minor;
        }
        var credited := CreditAccount(inv.payee, inv.amount);
      }
    }

    /** Debit, credit, post: the part of `pay` that moves money, under the payer's lock. */
    method MoveMoney(inv: Invocation, txn: Transaction, me: nat, ghost num: nat) returns (out: Outcome)
      requires Valid() && CountersFit() && CreditFits(inv)
      requires inv.payer in accounts && inv.payee in accounts
      requires txn == TxnOf(inv, At(Approved, num, [Initiated, Authorized]))
      modifies accounts.Values, ledger, transactions, events, entryIds, this`seqNo
      ensures Valid()
      ensures Finishes(inv, me, old(TheEnv()), old(View()), At(Approved, num, [Initiated, Authorized]), out)
    {
      ghost var env, g := TheEnv(), View();
      var d := Transfer(inv);
      if d.Fail? {
        assert View() == g;
        out := Fail(txn, d.code);
        RefusedRun(env, inv, me, g, num, txn);
      } else {
        assert View() == Paying(env, inv, g);
        out := PostEntries(inv, txn, me, num);
        TransferRuns(env, inv, me, g, num);
        CapturedRun(env, inv, me, Paying(env, inv, g), num, txn);
      }
    }

    /** The validation chain, then the two account lookups. */
    method CheckGate(inv: Invocation) returns (v: Verdict)
      requires Valid()
      ensures v == Gate(TheEnv(), inv)
      ensures var checked := RunChain(validation.handlers, inv.payer, inv.payee, inv.amount);
              var found := inv.payer in accounts && inv.payee in accounts;
              && (checked != Pass ==> v == checked)
              && (checked == Pass ==> v == if found then Pass else Reject(AccountNotFound))
    {
      v := validation.Run(inv.payer, inv.payee, inv.amount);
      if v.Pass? {
        if inv.payer !in accounts {
          v := Reject(AccountNotFound);
        } else if inv.payee !in accounts {
          v := Reject(AccountNotFound);
        }
      }
    }

    /** A request the gate lets pass is authorized, and its money moves. */
    method PayApproved(inv: Invocation, txn: Transaction, me: nat, ghost num: nat) returns (out: Outcome)
      requires Valid() && CountersFit() && CreditFits(inv) && Gate(TheEnv(), inv).Pass?
      requires txn == TxnOf(inv, At(Holding, num, [Initiated]))
      modifies accounts.Values, ledger, transactions, events, entryIds, this`seqNo
      ensures Valid()
      ensures Finishes(inv, me, old(TheEnv()), old(View()), At(Holding, num, [Initiated]), out)
    {
      hide RunFrom, Gate;
      var approved := AdvanceStatus(txn, Authorized);
      ghost var env, g := TheEnv(), View();
      assert env == old(TheEnv()) && g == old(View());
      GatePassed(env, inv);
      ApproveRuns(env, inv, me, g, num);
      out := MoveMoney(inv, approved, me, num);
    }

    method FailAtGate(inv: Invocation, txn: Transaction, me: nat, ghost num: nat, code: ErrorCode)
      returns (out: Outcome)
      requires Gate(TheEnv(), inv) == Reject(code)
      requires txn == TxnOf(inv, At(Holding, num, [Initiated]))
      modifies transactions, events
      ensures Balances() == old(Balances())
      ensures Finishes(inv, me, old(TheEnv()), old(View()), At(Holding, num, [Initiated]), out)
    {
      RejectedRun(TheEnv(), inv, me, View(), num, txn);
      out := Fail(txn, code);
    }

    /** Everything `pay` does while it holds the payer's lock. */
    method PayLocked(inv: Invocation, txn: Transaction, me: nat, ghost num: nat) returns (out: Outcome)
      requires Valid() && CountersFit() && Buildable(inv) && PaymentFits(inv)
      requires txn == TxnOf(inv, At(Holding, num, [Initiated]))
      modifies accounts.Values, ledger, transactions, events, entryIds, this`seqNo
      ensures Valid()
      ensures Finishes(inv, me, old(TheEnv()), old(View()), At(Holding, num, [Initiated]), out)
    {
      hide RunFrom, Gate;
      var v := CheckGate(inv);
      ghost var env, g := TheEnv(), View();
      assert env == old(TheEnv()) && g == old(View());
      match v {
        case Throws =>
          ThrowRuns(env, inv, me, g, num);
          out := Threw;
        case Reject(code) =>
          out := FailAtGate(inv, txn, me, num, code);
        case Pass =>
          out := PayApproved(inv, txn, me, num);
      }
    }

    /** The id counters have room for one more call. */
    ghost predicate Roomy()
      reads this, txnIds, entryIds
    {
      txnIds.counter + 1 < UINT64_COUNT && CountersFit()
    }

    /** One whole call: what it returns and what it leaves behind are exactly what the step machine does when the
        call runs without interference; and if its key is new, that is one atomic payment. Everything the next call
        needs holds again, as long as the counters have room. */
    method Pay(inv: Invocation, me: nat) returns (out: Outcome)
      requires Valid() && Roomy() && LockFree(View(), inv)
      requires inv.key !in idempotency.store ==> PaymentFits(inv)
      modifies accounts.Values, idempotency, transactions, ledger, events, locks, txnIds, entryIds, this`seqNo
      ensures Valid() && TheEnv() == old(TheEnv())
      ensures old(Bounded()) ==> Bounded()
      ensures Ends(inv, me, TheEnv(), old(View()), FRESH, out)
      ensures inv.key !in old(idempotency.store) ==>
        (Balances(), out) == AtomicPay(TheEnv(), old(Balances()), inv)
      ensures inv.key !in old(idempotency.store) ==>
        var id := TxnId(old(txnIds.counter));
        && idempotency.store == old(idempotency.store)[inv.key := id]
        && transactions.store == (if out.Threw? then old(transactions.store) else
             old(transactions.store)[id := Transaction(id, inv.key, inv.payer, inv.payee, inv.amount, inv.paymentMethod,
                                                       if out.Paid? then Captured else Failed, inv.now)])
        && events.log == old(events.log) + (if out.Threw? then [] else
             [DomainEvent(if out.Paid? then PaymentCaptured else PaymentFailed, id, inv.now)])
        && ledger.entries == old(ledger.entries) + (if !out.Paid? then [] else
             [LedgerEntry(EntryId(old(entryIds.counter)), id, inv.payer, Debit, inv.amount, old(seqNo)),
              LedgerEntry(EntryId(old(entryIds.counter) + 1), id, inv.payee, Credit, inv.amount, old(seqNo) + 1)])
      ensures inv.key in old(idempotency.store) ==>
        Balances() == old(Balances()) && out == RetryOutcome(old(View()), inv.key)
      ensures txnIds.counter == old(txnIds.counter) + 1
      ensures old(entryIds.counter) <= entryIds.counter <= old(entryIds.counter) + 2
      ensures forall other: Invocation :: LockFree(old(View()), other) ==> LockFree(View(), other)
    {
      hide RunFrom, AtomicPay, Ends, FundsBounded;
      ghost var env, g := TheEnv(), View();
      out := PayOnce(inv, me);
      if inv.key !in g.keys {
        EndsAtomically(env, inv, me, g, out);
        if FundsBounded(env, g.balances) {
          PayKeepsFundsBounded(env, g.balances, inv);
        }
      } else {
        EndsReplayed(env, inv, me, g, out);
      }
    }

    lemma EndsAtomically(env: Env, inv: Invocation, me: nat, g: Shared, out: Outcome)
      requires Fresh(env, inv, g) && Ends(inv, me, env, g, FRESH, out)
      ensures (Balances(), out) == AtomicPay(env, g.balances, inv)
      ensures var id := TxnId(g.nextTxn);
              && View().keys == g.keys[inv.key := id]
              && View().txns == (if out.Threw? then g.txns else g.txns[id := FinalTxn(inv, id, out)])
              && View().events == g.events + (if out.Threw? then [] else [Announcement(inv, id, out)])
              && View().journal == g.journal + (if out.Paid? then NextLines(inv, g) else [])
      ensures View().nextTxn == g.nextTxn + 1 && g.nextEntry <= View().nextEntry <= g.nextEntry + 2
      ensures forall other: Invocation :: LockFree(g, other) ==> LockFree(View(), other)
    {
      hide RunFrom, AtomicPay;
      AloneIsAtomic(env, inv, me, g);
    }

    lemma EndsReplayed(env: Env, inv: Invocation, me: nat, g: Shared, out: Outcome)
      requires inv.key in g.keys && Ends(inv, me, env, g, FRESH, out)
      ensures View() == g.(nextTxn := g.nextTxn + 1) && out == RetryOutcome(g, inv.key)
    {
      hide RunFrom;
      RetryRuns(env, inv, me, g);
    }

    method PayOnce(inv: Invocation, me: nat) returns (out: Outcome)
      requires Valid() && Roomy() && LockFree(View(), inv)
      requires inv.key !in idempotency.store ==> PaymentFits(inv)
      modifies accounts.Values, idempotency, transactions, ledger, events, locks, txnIds, entryIds, this`seqNo
      ensures Valid()
      ensures Ends(inv, me, old(TheEnv()), old(View()), FRESH, out)
    {
      hide RunFrom, AtomicPay, Gate;
      ghost var env, g, num := TheEnv(), View(), txnIds.counter;
      var txnId, won := MintAndClaim(inv);
      if won {
        out := PayClaimed(inv, txnId, me, num);
        ClaimRuns(env, inv, me, g);
      } else {
        RetryRuns(env, inv, me, g);
        out := ReplayOrDuplicate(inv.key);
      }
    }

    /** Mint a transaction id and try to claim the request's key for it. */
    method MintAndClaim(inv: Invocation) returns (txnId: string, won: bool)
      requires Valid() && txnIds.counter + 1 < UINT64_COUNT
      modifies idempotency, txnIds
      ensures Valid() && Balances() == old(Balances())
      ensures txnId == TxnId(old(txnIds.counter))
      ensures won <==> inv.key !in old(idempotency.store)
      ensures View() == if won then AfterClaim(inv, old(View())) else old(View()).(nextTxn := old(txnIds.counter) + 1)
    {
      ghost var b := Balances();
      txnId := txnIds.Next();
      won := idempotency.PutIfAbsent(inv.key, txnId);
      assert Balances() == b;
    }

    method ReplayOrDuplicate(key: string) returns (out: Outcome)
      requires key in idempotency.store
      ensures out == RetryOutcome(View(), key)
      ensures var id := idempotency.store[key];
              out == if id in transactions.store then Replayed(transactions.store[id]) else Duplicate
    {
      var existing := idempotency.Get(key);
      if existing.Some? {
        var prior := transactions.Find(existing.value);
        if prior.Some? {
          return Replayed(prior.value);
        }
      }
      return Duplicate;
    }

    /** The call after it has won its key: build, lock, pay, unlock. */
    method PayClaimed(inv: Invocation, txnId: string, me: nat, ghost num: nat) returns (out: Outcome)
      requires Valid() && CountersFit() && PaymentFits(inv) && LockFree(View(), inv)
      requires txnId == TxnId(num)
      modifies accounts.Values, transactions, ledger, events, locks, entryIds, this`seqNo
      ensures Valid()
      ensures Ends(inv, me, old(TheEnv()), old(View()), At(Claimed, num, []), out)
    {
      ghost var env, g := TheEnv(), View();
      if inv.payer == "" || inv.payee == "" {
        OneStep(env, inv, me, g, At(Claimed, num, []), g, At(Done(Threw), num, []));
        Arrived(env, inv, me, g, At(Done(Threw), num, []));
        return Threw;
      }
      var txn := Transaction(txnId, inv.key, inv.payer, inv.payee, inv.amount, inv.paymentMethod, Initiated, inv.now);
      LockRuns(env, inv, me, g, num);
      out := PayUnderLock(inv, txn, me, num);
    }

    /** The guard's scope. */
    method PayUnderLock(inv: Invocation, txn: Transaction, me: nat, ghost num: nat) returns (out: Outcome)
      requires Valid() && CountersFit() && Buildable(inv) && PaymentFits(inv) && LockFree(View(), inv)
      requires txn == TxnOf(inv, At(Holding, num, [Initiated]))
      modifies accounts.Values, ledger, transactions, events, locks, entryIds, this`seqNo
      ensures Valid()
      ensures Ends(inv, me, old(TheEnv()), Locked(inv, me, old(View())), At(Holding, num, [Initiated]), out)
    {
      hide RunFrom;
      AcquirePayer(inv, me);
      out := PayLocked(inv, txn, me, num);
      ReleasePayer(inv);
    }

    method AcquirePayer(inv: Invocation, me: nat)
      requires LockFree(View(), inv)
      modifies locks
      ensures Balances() == old(Balances())
      ensures View() == Locked(inv, me, old(View()))
    {
      var acquired := locks.Acquire(LockKey(inv.payer), me);
    }

    method ReleasePayer(inv: Invocation)
      requires LockKey(inv.payer) in locks.locks && locks.locks[LockKey(inv.payer)].Some?
      modifies locks
      ensures Balances() == old(Balances())
      ensures View() == Unlocked(inv, old(View()))
    {
      locks.Release(LockKey(inv.payer));
    }
  }

  /** From a rejection at the gate to the end. */
  lemma RejectedRun(env: Env, inv: Invocation, me: nat, g: Shared, num: nat, txn: Transaction)
    requires txn == TxnOf(inv, At(Holding, num, [Initiated]))
    requires Gate(env, inv).Reject?
    ensures var r := RunFrom(env, inv, me, g, At(Holding, num, [Initiated]));
            r.0 == Unlocked(inv, PaymentService.FailedView(txn, g)) && r.1.pc == Done(Refused(Gate(env, inv).code))
  {
    var code := Gate(env, inv).code;
    RejectRuns(env, inv, me, g, num);
    FailRuns(env, inv, me, g, num, [Initiated, Failed], code);
    assert TxnOf(inv, At(Failing(code), num, [Initiated, Failed])) == txn.(status := Failed);
  }

  /** From a refused debit to the end. */
  lemma RefusedRun(env: Env, inv: Invocation, me: nat, g: Shared, num: nat, txn: Transaction)
    requires HasAccount(env, g, inv.payer) && HasAccount(env, g, inv.payee)
    requires txn == TxnOf(inv, At(Approved, num, [Initiated, Authorized]))
    requires AfterDebit(env, g.balances, inv.payer, inv.amount).0.Fail?
    ensures var code := AfterDebit(env, g.balances, inv.payer, inv.amount).0.code;
            var r := RunFrom(env, inv, me, g, At(Approved, num, [Initiated, Authorized]));
            r.0 == Unlocked(inv, PaymentService.FailedView(txn, g)) && r.1.pc == Done(Refused(code))
  {
    var code := AfterDebit(env, g.balances, inv.payer, inv.amount).0.code;
    var trail := [Initiated, Authorized, Failed];
    DebitFailRuns(env, inv, me, g, num);
    FailRuns(env, inv, me, g, num, trail, code);
    assert TxnOf(inv, At(Failing(code), num, trail)) == txn.(status := Failed);
  }

  lemma PostingFits(inv: Invocation, c: Call)
    requires AllMinted(c) && 0 <= inv.amount.minor
    ensures SumsFit([DebitEntry(inv, c), CreditEntry(inv, c)])
  {
    hide Net, EntryId, TxnId;
    var d, e := DebitEntry(inv, c), CreditEntry(inv, c);
    var batch := [d, e];
    assert batch[..0] == [] && batch[..1] == [d] && batch[..2] == batch;
    NetIsSum([], d, []);
    NetIsSum([d], e, []);
    assert [] + [d] + [] == [d] && [d] + [e] + [] == batch;
    assert Net([d]) == SignedMinor(d) && Net(batch) == 0;
  }

  /** From the credit to the end: what the step machine does to the stores. */
  lemma CapturedRun(env: Env, inv: Invocation, me: nat, g: Shared, num: nat, txn: Transaction)
    requires txn == TxnOf(inv, At(Credited, num, [Initiated, Authorized]))
    ensures var r := RunFrom(env, inv, me, g, At(Credited, num, [Initiated, Authorized]));
            r.0 == Unlocked(inv, PaymentService.CapturedView(inv, txn, num, g)) && r.1.pc == Done(Paid)
  {
    var trail := [Initiated, Authorized];
    PostRuns(env, inv, me, g, num, trail);
    var c := WithEntries(At(Credited, num, trail), g).(pc := Posted);
    CaptureRuns(env, inv, me, PostedLines(inv, g, At(Credited, num, trail)), c);
    assert TxnOf(inv, c.(pc := Saved(Paid), trail := [Initiated, Authorized, Captured])) == txn.(status := Captured);
  }

  lemma GatePassed(env: Env, inv: Invocation)
    requires Gate(env, inv).Pass?
    ensures inv.payer in env.opening && inv.payee in env.opening
  {
  }

  /** A request and its retry, one after the other: the retry moves nothing and is answered with the stored
      transaction of the first call, or, if that threw, with the duplicate-request error. */
  method PayAndRetry(service: PaymentService, first: Invocation, retry: Invocation, me: nat)
    returns (out: Outcome, again: Outcome)
    requires service.Valid() && service.PaymentFits(first) && service.Roomy()
    requires service.txnIds.counter + 2 < UINT64_COUNT
    requires LockFree(service.View(), first) && LockFree(service.View(), retry)
    requires first.key !in service.idempotency.store && retry.key == first.key
    requires TxnId(service.txnIds.counter) !in service.transactions.store
    requires service.entryIds.counter + 4 < UINT64_COUNT
    modifies service, service.accounts.Values, service.idempotency, service.transactions, service.ledger,
             service.events, service.locks, service.txnIds, service.entryIds
    ensures service.Valid() && (old(service.Bounded()) ==> service.Bounded())
    ensures (service.Balances(), out) == AtomicPay(service.TheEnv(), old(service.Balances()), first)
    ensures again == Duplicate || again.Replayed?
    ensures again == Duplicate <==> out == Threw
    ensures again.Replayed? ==>
      again.txn == Transaction(TxnId(old(service.txnIds.counter)), first.key, first.payer, first.payee, first.amount,
                               first.paymentMethod, if out.Paid? then Captured else Failed, first.now)
  {
    hide RunFrom, AtomicPay;
    ghost var env, g := service.TheEnv(), service.View();
    out := service.Pay(first, me);
    AloneIsAtomic(env, first, me, g);
    ghost var kept := service.View();
    assert kept.keys[first.key] == TxnId(g.nextTxn);
    assert TxnId(g.nextTxn) in kept.txns <==> !out.Threw?;
    again := service.Pay(retry, me);
    assert again == RetryOutcome(kept, first.key);
  }
}
