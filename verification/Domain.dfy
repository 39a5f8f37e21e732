/** Entities: transactions, journal lines, events, and the account with its guarded balance. */
module Domain {
  import opened Common
  import Lifecycle

  datatype PaymentMethod = Card | Upi | Wallet | NetBanking

  datatype Transaction = Transaction(
    id: string,
    idempotencyKey: string,
    payer: string,
    payee: string,
    amount: Money,
    paymentMethod: PaymentMethod,
    status: Lifecycle.TxnStatus,
    createdAt: int64)

  datatype Direction = Debit | Credit

  datatype LedgerEntry = LedgerEntry(
    entryId: string,
    txnId: string,
    account: string,
    direction: Direction,
    amount: Money,
    seqNo: nat)

  /** The effect of a line on its account. The source multiplies by -1, which is undefined for
      the most negative amount only. */
  function SignedMinor(e: LedgerEntry): (n: int)
    ensures e.amount.minor != INT64_MIN ==> InInt64(n)
    ensures e.direction.Credit? ==> n == e.amount.minor
    ensures e.direction.Debit? ==> n + e.amount.minor == 0
  {
    if e.direction == Credit then e.amount.minor else -(e.amount.minor as int)
  }

  datatype EventKind = PaymentCaptured | PaymentFailed

  datatype DomainEvent = DomainEvent(kind: EventKind, aggregateId: string, occurredAt: int64)

  /** The decision of a guarded debit against a balance. */
  function DebitStatus(balance: int, ccy: Currency, amount: Money): Status {
    if amount.ccy != ccy then Fail(ValidationFailed)
    else if amount.minor < 0 then Fail(ValidationFailed)
    else if amount.minor > balance then Fail(InsufficientFunds)
    else Okay
  }

  function CreditStatus(ccy: Currency, amount: Money): Status {
    if amount.ccy != ccy then Fail(ValidationFailed)
    else if amount.minor < 0 then Fail(ValidationFailed)
    else Okay
  }

  /** Account: one mutex-guarded balance; each method is one critical section. */
  class Account {
    const id: string
    const ccy: Currency
    var balance: int64

    constructor (id: string, opening: Money)
      ensures this.id == id && ccy == opening.ccy && balance == opening.minor
    {
      this.id := id;
      ccy := opening.ccy;
      balance := opening.minor;
    }

    method Credit(amount: Money) returns (s: Status)
      requires CreditStatus(ccy, amount).Okay? ==> balance + amount.minor <= INT64_MAX
      modifies this
      ensures s == CreditStatus(ccy, amount)
      ensures s.Okay? <==> amount.ccy == ccy && 0 <= amount.minor
      ensures s.Fail? ==> s.code == ValidationFailed
      ensures balance == if s.Okay? then old(balance) + amount.minor else old(balance)
    {
      if amount.ccy != ccy {
        return Fail(ValidationFailed);
      }
      if amount.minor < 0 {
        return Fail(ValidationFailed);
      }
      balance := balance + amount.minor;
      return Okay;
    }

    /** An accepted debit never overdraws and never overflows; a rejected one moves nothing. */
    method Debit(amount: Money) returns (s: Status)
      modifies this
      ensures s == DebitStatus(old(balance), ccy, amount)
      ensures s.Okay? <==> amount.ccy == ccy && 0 <= amount.minor <= old(balance)
      ensures s == Fail(ValidationFailed) <==> amount.ccy != ccy || amount.minor < 0
      ensures s == Fail(InsufficientFunds) <==> amount.ccy == ccy && 0 <= amount.minor && old(balance) < amount.minor
      ensures balance == if s.Okay? then old(balance) - amount.minor else old(balance)
      ensures balance <= old(balance)
      ensures 0 <= old(balance) || s.Okay? ==> 0 <= balance
    {
      if amount.ccy != ccy {
        return Fail(ValidationFailed);
      }
      if amount.minor < 0 {
        return Fail(ValidationFailed);
      }
      if amount.minor > balance {
        return Fail(InsufficientFunds);
      }
      balance := balance - amount.minor;
      return Okay;
    }
  }
}
