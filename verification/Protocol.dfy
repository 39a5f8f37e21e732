/** The payment protocol as a step machine.

    Every adapter holds its own mutex for a whole operation, so one call of `pay` is a sequence of atomic
    steps on the shared stores, and calls interleave between any two of them. Only the payer's account is
    locked; everything else changes under a call's feet. A `Config` fixes the accounts, the validation chain
    and any finite number of calls; a schedule is any sequence of picks of who moves next. */
module Protocol {
  import opened Common
  import opened Lifecycle
  import opened Domain
  import opened Validation
  import Ledger
  import Stores

  datatype Invocation = Invocation(
    key: string,
    payer: string,
    payee: string,
    amount: Money,
    paymentMethod: PaymentMethod,
    now: int64)

  /** What stays fixed during a run: the accounts with their opening balances, and the handlers. */
  datatype Env = Env(opening: map<string, Money>, chain: seq<Handler>)

  datatype Config = Config(env: Env, calls: seq<Invocation>)

  /** How a call ends: the winner of its key with a captured or failed transaction or with an exception, any
      other call with a replay of the stored transaction or a duplicate-request error. */
  datatype Outcome =
    | Paid
    | Refused(code: ErrorCode)
    | Threw
    | Replayed(txn: Transaction)
    | Duplicate

  /** Where a call stands; each name describes what has been done already. */
  datatype Pc =
    | Start
    | Minted
    | Beaten
    | Looking(existing: string)
    | Claimed
    | Waiting
    | Holding
    | Approved
    | Debited
    | Credited
    | Posted
    | Unposted(code: ErrorCode)
    | Restored(code: ErrorCode)
    | Failing(code: ErrorCode)
    | Saved(out: Outcome)
    | Published(out: Outcome)
    | Unwinding
    | Done(out: Outcome)

  /** The locals of one call. `num` is the minted transaction number, 0 before minting; `trail` is the
      status history of the call's transaction, empty before it is built, and its last element is the status. */
  datatype Call = Call(
    pc: Pc,
    num: nat,
    trail: seq<TxnStatus>,
    debitId: Option<nat>,
    debitSeq: Option<nat>,
    creditId: Option<nat>,
    creditSeq: Option<nat>)

  const FRESH := Call(Start, 0, [], None, None, None, None)

  /** Everything the calls share. */
  datatype Shared = Shared(
    balances: map<string, int>,
    keys: map<string, string>,
    locks: map<string, Option<nat>>,
    txns: map<string, Transaction>,
    journal: seq<LedgerEntry>,
    events: seq<DomainEvent>,
    nextTxn: nat,
    nextEntry: nat,
    nextSeq: nat)

  function TxnId(num: nat): string {
    Stores.IdText("txn", num)
  }

  function EntryId(num: nat): string {
    Stores.IdText("le", num)
  }

  function LockKey(account: string): string {
    "account:" + account
  }

  function StatusOf(c: Call): TxnStatus {
    if c.trail == [] then Initiated else c.trail[|c.trail| - 1]
  }

  /** The call's transaction as it stands. */
  function TxnOf(inv: Invocation, c: Call): Transaction {
    Transaction(TxnId(c.num), inv.key, inv.payer, inv.payee, inv.amount, inv.paymentMethod, StatusOf(c), inv.now)
  }

  function DebitEntry(inv: Invocation, c: Call): LedgerEntry
    requires c.debitId.Some? && c.debitSeq.Some?
  {
    LedgerEntry(EntryId(c.debitId.value), TxnId(c.num), inv.payer, Debit, inv.amount, c.debitSeq.value)
  }

  function CreditEntry(inv: Invocation, c: Call): LedgerEntry
    requires c.creditId.Some? && c.creditSeq.Some?
  {
    LedgerEntry(EntryId(c.creditId.value), TxnId(c.num), inv.payee, Credit, inv.amount, c.creditSeq.value)
  }

  /** The gate before any money moves: the chain first, then the two account lookups. The four registered
      strategies authorize every request. */
  function Gate(env: Env, inv: Invocation): Verdict {
    var v := RunChain(env.chain, inv.payer, inv.payee, inv.amount);
    if v != Pass then v
    else if inv.payer !in env.opening then Reject(AccountNotFound)
    else if inv.payee !in env.opening then Reject(AccountNotFound)
    else Pass
  }

  /** Building a transaction without a payer or a payee throws. */
  predicate Buildable(inv: Invocation) {
    inv.payer != "" && inv.payee != ""
  }

  /** Points at which the code touches the two accounts it has looked up. */
  predicate AtAccounts(pc: Pc) {
    pc.Approved? || pc.Debited? || pc.Unposted? || pc.Restored?
  }

  predicate HasAccount(env: Env, g: Shared, account: string) {
    account in env.opening && account in g.balances
  }

  predicate AllMinted(c: Call) {
    c.debitId.Some? && c.debitSeq.Some? && c.creditId.Some? && c.creditSeq.Some?
  }

  /** A call can move unless it has finished or waits for a lock somebody holds. The remaining conjuncts say
      that its locals are in order; `OnlyLocksBlock` shows that they always are. */
  predicate CanMove(env: Env, inv: Invocation, g: Shared, c: Call) {
    && !c.pc.Done?
    && (c.pc.Waiting? ==> LockKey(inv.payer) in g.locks ==> g.locks[LockKey(inv.payer)].None?)
    && (!(c.pc.Start? || c.pc.Minted? || c.pc.Beaten? || c.pc.Looking? || c.pc.Claimed?) ==> c.trail != [])
    && (AtAccounts(c.pc) ==> HasAccount(env, g, inv.payer) && HasAccount(env, g, inv.payee))
  }

  function AfterDebit(env: Env, balances: map<string, int>, account: string, amount: Money): (Status, map<string, int>)
    requires account in env.opening && account in balances
  {
    var s := DebitStatus(balances[account], env.opening[account].ccy, amount);
    (s, if s.Okay? then balances[account := balances[account] - amount.minor] else balances)
  }

  function AfterCredit(env: Env, balances: map<string, int>, account: string, amount: Money): map<string, int>
    requires account in env.opening && account in balances
  {
    if CreditStatus(env.opening[account].ccy, amount).Okay?
    then balances[account := balances[account] + amount.minor]
    else balances
  }

  /** Taking the next entry id or the next sequence number. The two arguments of one entry are evaluated in
      either order (`seqFirst` chooses), but the first entry is complete before the second begins. */
  function MintStep(g: Shared, c: Call, seqFirst: bool): (Shared, Call)
    requires !AllMinted(c)
  {
    if c.debitId.None? || c.debitSeq.None? then
      if c.debitSeq.None? && (seqFirst || c.debitId.Some?)
      then (g.(nextSeq := g.nextSeq + 1), c.(debitSeq := Some(g.nextSeq)))
      else (g.(nextEntry := g.nextEntry + 1), c.(debitId := Some(g.nextEntry)))
    else
      if c.creditSeq.None? && (seqFirst || c.creditId.Some?)
      then (g.(nextSeq := g.nextSeq + 1), c.(creditSeq := Some(g.nextSeq)))
      else (g.(nextEntry := g.nextEntry + 1), c.(creditId := Some(g.nextEntry)))
  }

  /** One atomic step of call `me`. */
  function StepOf(env: Env, inv: Invocation, me: nat, g: Shared, c: Call, seqFirst: bool): (Shared, Call)
    requires CanMove(env, inv, g, c)
  {
    match c.pc
    case Start =>
      (g.(nextTxn := g.nextTxn + 1), c.(pc := Minted, num := g.nextTxn))
    case Minted =>
      if inv.key in g.keys then (g, c.(pc := Beaten))
      else (g.(keys := g.keys[inv.key := TxnId(c.num)]), c.(pc := Claimed))
    case Beaten =>
      (g, c.(pc := if inv.key in g.keys then Looking(g.keys[inv.key]) else Done(Duplicate)))
    case Looking(existing) =>
      (g, c.(pc := Done(if existing in g.txns then Replayed(g.txns[existing]) else Duplicate)))
    case Claimed =>
      if Buildable(inv) then (g, c.(pc := Waiting, trail := [Initiated])) else (g, c.(pc := Done(Threw)))
    case Waiting =>
      (g.(locks := g.locks[LockKey(inv.payer) := Some(me)]), c.(pc := Holding))
    case Holding =>
      (match Gate(env, inv)
       case Pass => (g, c.(pc := Approved, trail := Advance(c.trail, Authorized)))
       case Reject(code) => (g, c.(pc := Failing(code), trail := Advance(c.trail, Failed)))
       case Throws => (g, c.(pc := Unwinding)))
    case Approved =>
      var (s, balances) := AfterDebit(env, g.balances, inv.payer, inv.amount);
      if s.Okay? then (g.(balances := balances), c.(pc := Debited))
      else (g, c.(pc := Failing(s.code), trail := Advance(c.trail, Failed)))
    case Debited =>
      // The status of the credit is ignored.
      (g.(balances := AfterCredit(env, g.balances, inv.payee, inv.amount)), c.(pc := Credited))
    case Credited =>
      if !AllMinted(c) then MintStep(g, c, seqFirst)
      else
        var batch := [DebitEntry(inv, c), CreditEntry(inv, c)];
        var s := Ledger.PostStatus(batch);
        if s.Okay? then (g.(journal := g.journal + batch), c.(pc := Posted)) else (g, c.(pc := Unposted(s.code)))
    case Unposted(code) =>
      (g.(balances := AfterCredit(env, g.balances, inv.payer, inv.amount)), c.(pc := Restored(code)))
    case Restored(code) =>
      (g.(balances := AfterDebit(env, g.balances, inv.payee, inv.amount).1),
       c.(pc := Failing(code), trail := Advance(c.trail, Failed)))
    case Posted =>
      var c' := c.(pc := Saved(Paid), trail := Advance(c.trail, Captured));
      (g.(txns := g.txns[TxnId(c.num) := TxnOf(inv, c')]), c')
    case Failing(code) =>
      (g.(txns := g.txns[TxnId(c.num) := TxnOf(inv, c)]), c.(pc := Saved(Refused(code))))
    case Saved(out) =>
      (g.(events := g.events + [EventOf(inv, c.num, out.Paid?)]), c.(pc := Published(out)))
    case Published(out) =>
      (g.(locks := g.locks[LockKey(inv.payer) := None]), c.(pc := Done(out)))
    case Unwinding =>
      (g.(locks := g.locks[LockKey(inv.payer) := None]), c.(pc := Done(Threw)))
  }

  function EventOf(inv: Invocation, num: nat, paid: bool): DomainEvent {
    DomainEvent(if paid then PaymentCaptured else PaymentFailed, TxnId(num), inv.now)
  }

  /** The decision a winner has reached: a payment succeeds when the payee has been credited, a refusal or an
      exception counts from the step that decides it. */
  function Decision(pc: Pc): Option<Outcome> {
    match pc
    case Credited | Posted => Some(Paid)
    case Unposted(code) => Some(Refused(code))
    case Restored(code) => Some(Refused(code))
    case Failing(code) => Some(Refused(code))
    case Saved(out) => Some(out)
    case Published(out) => Some(out)
    case Unwinding => Some(Threw)
    case Done(out) => if out.Paid? || out.Refused? || out.Threw? then Some(out) else None
    case _ => None
  }

  datatype Logged = Logged(call: nat, paid: bool)

  /** History variables. No step reads them; they record who minted each id, who claimed each key, and in which
      order calls decided, posted and published. */
  datatype History = History(
    minter: map<string, nat>,
    owner: map<string, nat>,
    decided: seq<nat>,
    posted: seq<nat>,
    logged: seq<Logged>)

  function Record(inv: Invocation, me: nat, h: History, c: Call, c': Call): History {
    History(
      if c.pc.Start? then h.minter[TxnId(c'.num) := me] else h.minter,
      if c.pc.Minted? && c'.pc.Claimed? then h.owner[inv.key := me] else h.owner,
      if Decision(c.pc).None? && Decision(c'.pc).Some? then h.decided + [me] else h.decided,
      if c.pc.Credited? && c'.pc.Posted? then h.posted + [me] else h.posted,
      if c.pc.Saved? then h.logged + [Logged(me, c.pc.out.Paid?)] else h.logged)
  }

  datatype State = State(g: Shared, calls: seq<Call>, h: History)

  predicate Sized(cfg: Config, s: State) {
    |s.calls| == |cfg.calls|
  }

  predicate Enabled(cfg: Config, s: State, i: nat)
    requires Sized(cfg, s)
  {
    i < |cfg.calls| && CanMove(cfg.env, cfg.calls[i], s.g, s.calls[i])
  }

  function Next(cfg: Config, s: State, i: nat, seqFirst: bool): (s': State)
    requires Sized(cfg, s) && Enabled(cfg, s, i)
    ensures Sized(cfg, s')
  {
    var (g, c) := StepOf(cfg.env, cfg.calls[i], i, s.g, s.calls[i], seqFirst);
    State(g, s.calls[i := c], Record(cfg.calls[i], i, s.h, s.calls[i], c))
  }

  /** The balances the accounts open with. */
  function OpeningBalances(env: Env): map<string, int> {
    map a | a in env.opening :: env.opening[a].minor
  }

  function InitShared(env: Env): Shared {
    Shared(OpeningBalances(env), map[], map[], map[], [], [], 1, 1, 1)
  }

  function Init(cfg: Config): (s: State)
    ensures Sized(cfg, s)
  {
    State(InitShared(cfg.env), seq(|cfg.calls|, _ => FRESH), History(map[], map[], [], [], []))
  }

  /** One pick of the scheduler. Picking a call that cannot move leaves everything as it is. */
  datatype Pick = Pick(call: nat, seqFirst: bool)

  function Move(cfg: Config, s: State, p: Pick): (s': State)
    requires Sized(cfg, s)
    ensures Sized(cfg, s')
  {
    if Enabled(cfg, s, p.call) then Next(cfg, s, p.call, p.seqFirst) else s
  }

  /** The state after a schedule. Every interleaving of the calls is the run of some schedule. */
  function Exec(cfg: Config, sched: seq<Pick>): (s: State)
    ensures Sized(cfg, s)
  {
    if sched == [] then Init(cfg)
    else Move(cfg, Exec(cfg, sched[..|sched| - 1]), sched[|sched| - 1])
  }

  /** The last pick of a schedule that goes on. */
  lemma ExecOn(cfg: Config, early: seq<Pick>, late: seq<Pick>)
    requires late != []
    ensures var n := |late| - 1;
            Exec(cfg, early + late) == Move(cfg, Exec(cfg, early + late[..n]), late[n])
  {
    hide Move, Init, Enabled;
    assert (early + late)[..|early + late| - 1] == early + late[..|late| - 1];
  }

  /** Some schedule leads here. */
  ghost predicate Reachable(cfg: Config, s: State) {
    Sized(cfg, s) && exists sched :: s == Exec(cfg, sched)
  }
}
