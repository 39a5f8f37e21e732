/** One call of `pay` running with nobody in its way: the link between the step machine, the sequential meaning
    of a payment and the service's own code. */
module Alone {
  import opened Common
  import opened Lifecycle
  import opened Domain
  import opened Validation
  import opened Protocol
  import opened ProtocolInvariant
  import opened Books
  import opened Linearizability
  import Progress

  /** The call runs on until it is done or blocked. Arguments are taken left to right. */
  function RunFrom(env: Env, inv: Invocation, me: nat, g: Shared, c: Call): (r: (Shared, Call))
    decreases StepsLeft(c)
  {
    if CanMove(env, inv, g, c) then
      Progress.StepsLeftDrop(env, inv, me, g, c, false);
      var (g', c') := StepOf(env, inv, me, g, c, false);
      RunFrom(env, inv, me, g', c')
    else
      (g, c)
  }

  /** From (g, c) the call comes through (g', c'). */
  ghost predicate Through(env: Env, inv: Invocation, me: nat, g: Shared, c: Call, g': Shared, c': Call) {
    RunFrom(env, inv, me, g, c) == RunFrom(env, inv, me, g', c')
  }

  lemma OneStep(env: Env, inv: Invocation, me: nat, g: Shared, c: Call, g': Shared, c': Call)
    requires CanMove(env, inv, g, c) && StepOf(env, inv, me, g, c, false) == (g', c')
    ensures Through(env, inv, me, g, c, g', c')
  {
  }

  /** A done call goes nowhere. */
  lemma Arrived(env: Env, inv: Invocation, me: nat, g: Shared, c: Call)
    requires c.pc.Done?
    ensures RunFrom(env, inv, me, g, c) == (g, c)
  {
  }

  /** The locals of a call that has minted number `num` and whose transaction has gone through `trail`. */
  function At(pc: Pc, num: nat, trail: seq<TxnStatus>): Call {
    Call(pc, num, trail, None, None, None, None)
  }

  /** Minting the two entries of a posting, left to right. */
  function WithEntries(c: Call, g: Shared): Call {
    c.(debitId := Some(g.nextEntry), debitSeq := Some(g.nextSeq),
       creditId := Some(g.nextEntry + 1), creditSeq := Some(g.nextSeq + 1))
  }

  lemma MintsThrough(env: Env, inv: Invocation, me: nat, g: Shared, num: nat, trail: seq<TxnStatus>)
    requires trail != []
    ensures Through(env, inv, me, g, At(Credited, num, trail),
                    g.(nextEntry := g.nextEntry + 2, nextSeq := g.nextSeq + 2),
                    WithEntries(At(Credited, num, trail), g))
  {
    var c0 := At(Credited, num, trail);
    var g1, c1 := g.(nextEntry := g.nextEntry + 1), c0.(debitId := Some(g.nextEntry));
    var g2, c2 := g1.(nextSeq := g.nextSeq + 1), c1.(debitSeq := Some(g.nextSeq));
    var g3, c3 := g2.(nextEntry := g.nextEntry + 2), c2.(creditId := Some(g.nextEntry + 1));
    var g4, c4 := g3.(nextSeq := g.nextSeq + 2), c3.(creditSeq := Some(g.nextSeq + 1));
    OneStep(env, inv, me, g, c0, g1, c1);
    OneStep(env, inv, me, g1, c1, g2, c2);
    OneStep(env, inv, me, g2, c2, g3, c3);
    OneStep(env, inv, me, g3, c3, g4, c4);
  }

  /** What a call gets when its key is already claimed. */
  function RetryOutcome(g: Shared, key: string): Outcome
    requires key in g.keys
  {
    if g.keys[key] in g.txns then Replayed(g.txns[g.keys[key]]) else Duplicate
  }

  lemma RetryRuns(env: Env, inv: Invocation, me: nat, g: Shared)
    requires inv.key in g.keys
    ensures RunFrom(env, inv, me, g, FRESH)
         == (g.(nextTxn := g.nextTxn + 1), At(Done(RetryOutcome(g, inv.key)), g.nextTxn, []))
  {
    var g1 := g.(nextTxn := g.nextTxn + 1);
    var n := g.nextTxn;
    var done := At(Done(RetryOutcome(g, inv.key)), n, []);
    OneStep(env, inv, me, g, FRESH, g1, At(Minted, n, []));
    OneStep(env, inv, me, g1, At(Minted, n, []), g1, At(Beaten, n, []));
    OneStep(env, inv, me, g1, At(Beaten, n, []), g1, At(Looking(g.keys[inv.key]), n, []));
    OneStep(env, inv, me, g1, At(Looking(g.keys[inv.key]), n, []), g1, done);
    Arrived(env, inv, me, g1, done);
  }

  function AfterClaim(inv: Invocation, g: Shared): Shared {
    g.(nextTxn := g.nextTxn + 1, keys := g.keys[inv.key := TxnId(g.nextTxn)])
  }

  lemma ClaimRuns(env: Env, inv: Invocation, me: nat, g: Shared)
    requires inv.key !in g.keys
    ensures Through(env, inv, me, g, FRESH, AfterClaim(inv, g), At(Claimed, g.nextTxn, []))
  {
    var g1 := g.(nextTxn := g.nextTxn + 1);
    OneStep(env, inv, me, g, FRESH, g1, At(Minted, g.nextTxn, []));
    OneStep(env, inv, me, g1, At(Minted, g.nextTxn, []), AfterClaim(inv, g), At(Claimed, g.nextTxn, []));
  }

  ghost predicate LockFree(g: Shared, inv: Invocation) {
    LockKey(inv.payer) in g.locks ==> g.locks[LockKey(inv.payer)].None?
  }

  function Locked(inv: Invocation, me: nat, g: Shared): Shared {
    g.(locks := g.locks[LockKey(inv.payer) := Some(me)])
  }

  function Unlocked(inv: Invocation, g: Shared): Shared {
    g.(locks := g.locks[LockKey(inv.payer) := None])
  }

  lemma LockRuns(env: Env, inv: Invocation, me: nat, g: Shared, num: nat)
    requires Buildable(inv) && LockFree(g, inv)
    ensures Through(env, inv, me, g, At(Claimed, num, []), Locked(inv, me, g), At(Holding, num, [Initiated]))
  {
    OneStep(env, inv, me, g, At(Claimed, num, []), g, At(Waiting, num, [Initiated]));
    OneStep(env, inv, me, g, At(Waiting, num, [Initiated]), Locked(inv, me, g), At(Holding, num, [Initiated]));
  }

  lemma ThrowRuns(env: Env, inv: Invocation, me: nat, g: Shared, num: nat)
    requires Gate(env, inv).Throws?
    ensures RunFrom(env, inv, me, g, At(Holding, num, [Initiated]))
         == (Unlocked(inv, g), At(Done(Threw), num, [Initiated]))
  {
    OneStep(env, inv, me, g, At(Holding, num, [Initiated]), g, At(Unwinding, num, [Initiated]));
    OneStep(env, inv, me, g, At(Unwinding, num, [Initiated]), Unlocked(inv, g), At(Done(Threw), num, [Initiated]));
    Arrived(env, inv, me, Unlocked(inv, g), At(Done(Threw), num, [Initiated]));
  }

  /** Save, publish, release. */
  function Closed(inv: Invocation, g: Shared, c: Call, paid: bool): Shared {
    Unlocked(inv, g.(txns := g.txns[TxnId(c.num) := TxnOf(inv, c)],
                     events := g.events + [EventOf(inv, c.num, paid)]))
  }

  lemma FailRuns(env: Env, inv: Invocation, me: nat, g: Shared, num: nat, trail: seq<TxnStatus>, code: ErrorCode)
    requires trail != []
    ensures RunFrom(env, inv, me, g, At(Failing(code), num, trail))
         == (Closed(inv, g, At(Failing(code), num, trail), false), At(Done(Refused(code)), num, trail))
  {
    var c := At(Failing(code), num, trail);
    var g1 := g.(txns := g.txns[TxnId(num) := TxnOf(inv, c)]);
    var g2 := g1.(events := g1.events + [EventOf(inv, num, false)]);
    OneStep(env, inv, me, g, c, g1, At(Saved(Refused(code)), num, trail));
    OneStep(env, inv, me, g1, At(Saved(Refused(code)), num, trail), g2, At(Published(Refused(code)), num, trail));
    OneStep(env, inv, me, g2, At(Published(Refused(code)), num, trail),
            Unlocked(inv, g2), At(Done(Refused(code)), num, trail));
    Arrived(env, inv, me, Unlocked(inv, g2), At(Done(Refused(code)), num, trail));
  }

  lemma CaptureRuns(env: Env, inv: Invocation, me: nat, g: Shared, c: Call)
    requires c.pc.Posted? && c.trail == [Initiated, Authorized]
    ensures var c' := c.(pc := Saved(Paid), trail := [Initiated, Authorized, Captured]);
            RunFrom(env, inv, me, g, c) == (Closed(inv, g, c', true), c'.(pc := Done(Paid)))
  {
    AdvancesAreLegal();
    var c1 := c.(pc := Saved(Paid), trail := [Initiated, Authorized, Captured]);
    var g1 := g.(txns := g.txns[TxnId(c.num) := TxnOf(inv, c1)]);
    var g2 := g1.(events := g1.events + [EventOf(inv, c.num, true)]);
    OneStep(env, inv, me, g, c, g1, c1);
    OneStep(env, inv, me, g1, c1, g2, c1.(pc := Published(Paid)));
    OneStep(env, inv, me, g2, c1.(pc := Published(Paid)), Unlocked(inv, g2), c1.(pc := Done(Paid)));
    Arrived(env, inv, me, Unlocked(inv, g2), c1.(pc := Done(Paid)));
  }

  lemma RejectRuns(env: Env, inv: Invocation, me: nat, g: Shared, num: nat)
    requires Gate(env, inv).Reject?
    ensures Through(env, inv, me, g, At(Holding, num, [Initiated]),
                    g, At(Failing(Gate(env, inv).code), num, [Initiated, Failed]))
  {
    AdvancesAreLegal();
    OneStep(env, inv, me, g, At(Holding, num, [Initiated]),
            g, At(Failing(Gate(env, inv).code), num, [Initiated, Failed]));
  }

  lemma ApproveRuns(env: Env, inv: Invocation, me: nat, g: Shared, num: nat)
    requires Gate(env, inv).Pass?
    ensures Through(env, inv, me, g, At(Holding, num, [Initiated]), g, At(Approved, num, [Initiated, Authorized]))
  {
    AdvancesAreLegal();
    OneStep(env, inv, me, g, At(Holding, num, [Initiated]), g, At(Approved, num, [Initiated, Authorized]));
  }

  lemma DebitFailRuns(env: Env, inv: Invocation, me: nat, g: Shared, num: nat)
    requires HasAccount(env, g, inv.payer) && HasAccount(env, g, inv.payee)
    requires AfterDebit(env, g.balances, inv.payer, inv.amount).0.Fail?
    ensures Through(env, inv, me, g, At(Approved, num, [Initiated, Authorized]), g,
                    At(Failing(AfterDebit(env, g.balances, inv.payer, inv.amount).0.code), num,
                       [Initiated, Authorized, Failed]))
  {
    AdvancesAreLegal();
    var code := AfterDebit(env, g.balances, inv.payer, inv.amount).0.code;
    OneStep(env, inv, me, g, At(Approved, num, [Initiated, Authorized]),
            g, At(Failing(code), num, [Initiated, Authorized, Failed]));
  }

  /** Both balances moved. */
  function Paying(env: Env, inv: Invocation, g: Shared): Shared
    requires HasAccount(env, g, inv.payer) && HasAccount(env, g, inv.payee)
  {
    g.(balances := AfterCredit(env, AfterDebit(env, g.balances, inv.payer, inv.amount).1, inv.payee, inv.amount))
  }

  lemma TransferRuns(env: Env, inv: Invocation, me: nat, g: Shared, num: nat)
    requires HasAccount(env, g, inv.payer) && HasAccount(env, g, inv.payee)
    requires AfterDebit(env, g.balances, inv.payer, inv.amount).0.Okay?
    ensures Through(env, inv, me, g, At(Approved, num, [Initiated, Authorized]),
                    Paying(env, inv, g), At(Credited, num, [Initiated, Authorized]))
  {
    var trail := [Initiated, Authorized];
    var g1 := g.(balances := AfterDebit(env, g.balances, inv.payer, inv.amount).1);
    OneStep(env, inv, me, g, At(Approved, num, trail), g1, At(Debited, num, trail));
    OneStep(env, inv, me, g1, At(Debited, num, trail), Paying(env, inv, g), At(Credited, num, trail));
  }

  /** The posting, with its entries minted. */
  function PostedLines(inv: Invocation, g: Shared, c: Call): Shared {
    var c' := WithEntries(c, g);
    g.(nextEntry := g.nextEntry + 2, nextSeq := g.nextSeq + 2,
       journal := g.journal + [DebitEntry(inv, c'), CreditEntry(inv, c')])
  }

  lemma PostRuns(env: Env, inv: Invocation, me: nat, g: Shared, num: nat, trail: seq<TxnStatus>)
    requires trail != []
    ensures Through(env, inv, me, g, At(Credited, num, trail), PostedLines(inv, g, At(Credited, num, trail)),
                    WithEntries(At(Credited, num, trail), g).(pc := Posted))
  {
    var g1 := g.(nextEntry := g.nextEntry + 2, nextSeq := g.nextSeq + 2);
    var c1 := WithEntries(At(Credited, num, trail), g);
    MintsThrough(env, inv, me, g, num, trail);
    CreditedStep(env, inv, me, g1, c1, false);
    OneStep(env, inv, me, g1, c1, PostedLines(inv, g, At(Credited, num, trail)), c1.(pc := Posted));
  }

  // ----- What an undisturbed call amounts to -----

  ghost predicate Fresh(env: Env, inv: Invocation, g: Shared) {
    g.balances.Keys == env.opening.Keys && inv.key !in g.keys && LockFree(g, inv)
  }

  /** The two journal lines of a payment whose entries are minted next. */
  function NextLines(inv: Invocation, g: Shared): seq<LedgerEntry> {
    [LedgerEntry(EntryId(g.nextEntry), TxnId(g.nextTxn), inv.payer, Debit, inv.amount, g.nextSeq),
     LedgerEntry(EntryId(g.nextEntry + 1), TxnId(g.nextTxn), inv.payee, Credit, inv.amount, g.nextSeq + 1)]
  }

  /** What a call that answered `out` stores and announces. */
  function FinalTxn(inv: Invocation, id: string, out: Outcome): Transaction {
    Transaction(id, inv.key, inv.payer, inv.payee, inv.amount, inv.paymentMethod,
                if out.Paid? then Captured else Failed, inv.now)
  }

  function Announcement(inv: Invocation, id: string, out: Outcome): DomainEvent {
    DomainEvent(if out.Paid? then PaymentCaptured else PaymentFailed, id, inv.now)
  }

  /** The call decides as an atomic payment would, moves the balances as it would, leaves the lock free and the
      key claimed; if it was paid it posted its two lines; and unless it threw it stored its transaction and
      announced it. */
  ghost predicate Atomically(env: Env, inv: Invocation, g: Shared, r: (Shared, Call))
    requires g.balances.Keys == env.opening.Keys
  {
    var (balances, out) := AtomicPay(env, g.balances, inv);
    var id := TxnId(g.nextTxn);
    && r.1.pc == Done(out) && r.1.num == g.nextTxn
    && r.0.balances == balances
    && r.0.keys == g.keys[inv.key := id]
    && r.0.locks == (if Buildable(inv) then g.locks[LockKey(inv.payer) := None] else g.locks)
    && r.0.journal == g.journal + (if out.Paid? then NextLines(inv, g) else [])
    && r.0.events == g.events + (if out.Threw? then [] else [Announcement(inv, id, out)])
    && r.0.nextTxn == g.nextTxn + 1
    && r.0.nextEntry == g.nextEntry + (if out.Paid? then 2 else 0)
    && r.0.nextSeq == g.nextSeq + (if out.Paid? then 2 else 0)
    && (out.Threw? ==> r.0.txns == g.txns)
    && (!out.Threw? ==> r.0.txns == g.txns[id := FinalTxn(inv, id, out)] && TxnOf(inv, r.1) == FinalTxn(inv, id, out))
    && (!out.Threw? ==> StatusOf(r.1) == if out.Paid? then Captured else Failed)
  }

  lemma FailedAtomically(env: Env, inv: Invocation, me: nat, g: Shared, g': Shared, trail: seq<TxnStatus>,
                         code: ErrorCode)
    requires Fresh(env, inv, g) && Buildable(inv) && FailedTrail(trail)
    requires AtomicPay(env, g.balances, inv).1 == Refused(code)
    requires g' == Locked(inv, me, AfterClaim(inv, g))
    ensures Atomically(env, inv, g, RunFrom(env, inv, me, g', At(Failing(code), g.nextTxn, trail)))
  {
    hide RunFrom, AtomicPay;
    FailRuns(env, inv, me, g', g.nextTxn, trail, code);
    assert TxnOf(inv, At(Failing(code), g.nextTxn, trail)) == TxnOf(inv, At(Done(Refused(code)), g.nextTxn, trail));
  }

  /** What a paid call ends with, and where. */
  function PaidCall(g: Shared): Call {
    WithEntries(At(Done(Paid), g.nextTxn, [Initiated, Authorized, Captured]), g)
  }

  lemma PaidRuns(env: Env, inv: Invocation, me: nat, g: Shared, g': Shared)
    requires HasAccount(env, g, inv.payer) && HasAccount(env, g, inv.payee)
    requires AfterDebit(env, g.balances, inv.payer, inv.amount).0.Okay?
    requires g' == Locked(inv, me, AfterClaim(inv, g))
    ensures RunFrom(env, inv, me, g', At(Approved, g.nextTxn, [Initiated, Authorized]))
         == (Closed(inv, PostedLines(inv, Paying(env, inv, g'), At(Credited, g.nextTxn, [Initiated, Authorized])),
                    PaidCall(g), true),
             PaidCall(g))
  {
    hide RunFrom, AfterDebit, AfterCredit, DebitEntry, CreditEntry;
    var trail := [Initiated, Authorized];
    var g2 := Paying(env, inv, g');
    TransferRuns(env, inv, me, g', g.nextTxn);
    PostRuns(env, inv, me, g2, g.nextTxn, trail);
    var c := WithEntries(At(Credited, g.nextTxn, trail), g2).(pc := Posted);
    CaptureRuns(env, inv, me, PostedLines(inv, g2, At(Credited, g.nextTxn, trail)), c);
    var c' := c.(pc := Saved(Paid), trail := [Initiated, Authorized, Captured]);
    assert TxnOf(inv, c') == TxnOf(inv, c'.(pc := Done(Paid)));
  }

  lemma PaidAtomically(env: Env, inv: Invocation, me: nat, g: Shared, g': Shared)
    requires Fresh(env, inv, g) && Buildable(inv) && Gate(env, inv).Pass?
    requires HasAccount(env, g, inv.payer) && HasAccount(env, g, inv.payee)
    requires AfterDebit(env, g.balances, inv.payer, inv.amount).0.Okay?
    requires g' == Locked(inv, me, AfterClaim(inv, g))
    ensures Atomically(env, inv, g, RunFrom(env, inv, me, g', At(Approved, g.nextTxn, [Initiated, Authorized])))
  {
    hide RunFrom, AfterCredit;
    PaidRuns(env, inv, me, g, g');
  }

  /** The sequential meaning of the whole protocol: run without interference it is one atomic payment. */
  lemma AloneIsAtomic(env: Env, inv: Invocation, me: nat, g: Shared)
    requires Fresh(env, inv, g)
    ensures Atomically(env, inv, g, RunFrom(env, inv, me, g, FRESH))
  {
    var n := g.nextTxn;
    ClaimRuns(env, inv, me, g);
    if !Buildable(inv) {
      OneStep(env, inv, me, AfterClaim(inv, g), At(Claimed, n, []), AfterClaim(inv, g), At(Done(Threw), n, []));
      Arrived(env, inv, me, AfterClaim(inv, g), At(Done(Threw), n, []));
    } else {
      LockRuns(env, inv, me, AfterClaim(inv, g), n);
      HoldingIsAtomic(env, inv, me, g, Locked(inv, me, AfterClaim(inv, g)));
    }
  }

  lemma ThrownAtomically(env: Env, inv: Invocation, me: nat, g: Shared, g': Shared)
    requires Fresh(env, inv, g) && Buildable(inv) && Gate(env, inv).Throws?
    requires g' == Locked(inv, me, AfterClaim(inv, g))
    ensures Atomically(env, inv, g, RunFrom(env, inv, me, g', At(Holding, g.nextTxn, [Initiated])))
  {
    hide RunFrom;
    ThrowRuns(env, inv, me, g', g.nextTxn);
  }

  lemma HoldingIsAtomic(env: Env, inv: Invocation, me: nat, g: Shared, g': Shared)
    requires Fresh(env, inv, g) && Buildable(inv)
    requires g' == Locked(inv, me, AfterClaim(inv, g))
    ensures Atomically(env, inv, g, RunFrom(env, inv, me, g', At(Holding, g.nextTxn, [Initiated])))
  {
    hide RunFrom, AfterCredit, Atomically;
    var n := g.nextTxn;
    match Gate(env, inv) {
      case Throws => ThrownAtomically(env, inv, me, g, g');
      case Reject(code) =>
        RejectRuns(env, inv, me, g', n);
        FailedAtomically(env, inv, me, g, g', [Initiated, Failed], code);
      case Pass =>
        ApproveRuns(env, inv, me, g', n);
        var s := AfterDebit(env, g.balances, inv.payer, inv.amount).0;
        if s.Okay? {
          PaidAtomically(env, inv, me, g, g');
        } else {
          DebitFailRuns(env, inv, me, g', n);
          FailedAtomically(env, inv, me, g, g', [Initiated, Authorized, Failed], s.code);
        }
    }
  }

  // ----- Retries, and retries after a restart -----

  /** A retry with the same key, whatever else it asks for, moves nothing and gets the stored transaction of the
      first call, captured or failed; after a first call that threw it gets the duplicate-request error. */
  lemma RetryReplays(env: Env, first: Invocation, retry: Invocation, me: nat, g: Shared)
    requires Fresh(env, first, g) && retry.key == first.key
    requires TxnId(g.nextTxn) !in g.txns
    ensures var (g1, c1) := RunFrom(env, first, me, g, FRESH);
            var (g2, c2) := RunFrom(env, retry, me, g1, FRESH);
            && g2 == g1.(nextTxn := g1.nextTxn + 1)
            && c2.pc == Done(if c1.pc == Done(Threw) then Duplicate else Replayed(TxnOf(first, c1)))
  {
    AloneIsAtomic(env, first, me, g);
    RetryRuns(env, retry, me, RunFrom(env, first, me, g, FRESH).0);
  }

  /** So the retry of a payment that was refused is answered with an ordinary result holding a FAILED transaction. */
  lemma FailureIsReplayed(env: Env, first: Invocation, retry: Invocation, me: nat, g: Shared)
    requires Fresh(env, first, g) && retry.key == first.key
    requires TxnId(g.nextTxn) !in g.txns
    requires AtomicPay(env, g.balances, first).1.Refused?
    ensures var (g2, c2) := RunFrom(env, retry, me, RunFrom(env, first, me, g, FRESH).0, FRESH);
            c2.pc.Done? && c2.pc.out.Replayed? && c2.pc.out.txn.status == Failed && g2.balances == g.balances
  {
    hide RunFrom, AtomicPay;
    AloneIsAtomic(env, first, me, g);
    RetryReplays(env, first, retry, me, g);
  }

  /** A new process over the same transaction file: the idempotency store and the counters start afresh. */
  function Restarted(balances: map<string, int>, txns: map<string, Transaction>): Shared {
    Shared(balances, map[], map[], txns, [], [], 1, 1, 1)
  }

  /** A request is answered from the past if and only if its key is in the idempotency store. */
  lemma ReplaysIffClaimed(env: Env, inv: Invocation, me: nat, g: Shared)
    requires g.balances.Keys == env.opening.Keys && LockFree(g, inv)
    ensures var pc := RunFrom(env, inv, me, g, FRESH).1.pc;
            && pc.Done?
            && (pc.out.Replayed? || pc.out.Duplicate? <==> inv.key in g.keys)
  {
    if inv.key in g.keys {
      RetryRuns(env, inv, me, g);
    } else {
      AloneIsAtomic(env, inv, me, g);
    }
  }

  /** So durability of the transactions does not carry idempotency across a restart: after one, any request that
      can be paid is paid again, whatever the file holds, and its transaction overwrites the one stored as
      "txn_1". */
  lemma RestartChargesAgain(env: Env, inv: Invocation, me: nat, balances: map<string, int>,
                            txns: map<string, Transaction>)
    requires balances.Keys == env.opening.Keys
    requires AtomicPay(env, balances, inv).1.Paid?
    ensures var (g, c) := RunFrom(env, inv, me, Restarted(balances, txns), FRESH);
            && c.pc == Done(Paid)
            && g.balances == AtomicPay(env, balances, inv).0
            && g.txns == txns[TxnId(1) := TxnOf(inv, c)]
  {
    AloneIsAtomic(env, inv, me, Restarted(balances, txns));
  }

  /** The refused credit that is ignored, on a concrete input: 100 INR paid to an account kept in USD leave the
      payer and arrive nowhere, and the call returns a captured payment. */
  lemma MoneyCanVanish()
    ensures var env := Env(map["u" := Money(1000, INR), "m" := Money(0, USD)], [BasicCheck]);
            var inv := Invocation("k", "u", "m", Money(100, INR), Upi, 0);
            var (g, c) := RunFrom(env, inv, 0, InitShared(env), FRESH);
            && g.balances == map["u" := 900, "m" := 0]
            && c.pc == Done(Paid) && StatusOf(c) == Captured
  {
    hide RunFrom, Gate;
    var env := Env(map["u" := Money(1000, INR), "m" := Money(0, USD)], [BasicCheck]);
    var inv := Invocation("k", "u", "m", Money(100, INR), Upi, 0);
    var opening := map["u" := 1000, "m" := 0];
    assert OpeningBalances(env) == opening;
    BasicGate(env, inv);
    var debited := opening["u" := 900];
    assert AfterDebit(env, opening, "u", inv.amount) == (Okay, debited);
    assert AfterCredit(env, debited, "m", inv.amount) == debited;
    assert debited == map["u" := 900, "m" := 0];
    AloneIsAtomic(env, inv, 0, InitShared(env));
  }

  /** With the structural check as its only handler the gate passes any positive payment between two accounts. */
  lemma BasicGate(env: Env, inv: Invocation)
    requires env.chain == [BasicCheck]
    requires 0 < inv.amount.minor && inv.payer != inv.payee && inv.payer in env.opening && inv.payee in env.opening
    ensures Gate(env, inv) == Pass
  {
    assert env.chain[1..] == [];
    assert RunChain(env.chain[1..], inv.payer, inv.payee, inv.amount) == Pass;
  }
}
