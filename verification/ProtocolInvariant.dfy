/** What every step of every interleaving keeps: identity, key ownership, locks and stored transactions. */
module ProtocolInvariant {
  import opened Common
  import opened Lifecycle
  import opened Domain
  import opened Validation
  import opened Protocol
  import Ledger
  import Stores

  /** The call that claimed its key, as opposed to one that was beaten to it. */
  predicate Winner(pc: Pc) {
    match pc
    case Start | Minted | Beaten => false
    case Looking(_) => false
    case Done(out) => !out.Replayed? && !out.Duplicate?
    case _ => true
  }

  /** Between acquiring the payer's lock and releasing it. */
  predicate Critical(pc: Pc) {
    !(pc.Start? || pc.Minted? || pc.Beaten? || pc.Looking? || pc.Claimed? || pc.Waiting? || pc.Done?)
  }

  /** The transaction has been written to the repository. */
  predicate Stored(pc: Pc) {
    pc.Saved? || pc.Published? || (pc.Done? && (pc.out.Paid? || pc.out.Refused?))
  }

  /** The payee's credit has been done: the payment has succeeded. */
  predicate Succeeded(pc: Pc) {
    pc.Credited? || pc.Posted? || ((pc.Saved? || pc.Published? || pc.Done?) && pc.out.Paid?)
  }

  /** The payer has been debited and the money has not come back. */
  predicate Moved(pc: Pc) {
    pc.Debited? || Succeeded(pc)
  }

  /** The status history a call has at each point. */
  ghost predicate TrailFits(pc: Pc, trail: seq<TxnStatus>) {
    match pc
    case Start | Minted | Beaten | Claimed => trail == []
    case Looking(_) => trail == []
    case Waiting | Holding | Unwinding => trail == [Initiated]
    case Approved | Debited | Credited | Posted => trail == [Initiated, Authorized]
    case Unposted(_) => trail == [Initiated, Authorized]
    case Restored(_) => trail == [Initiated, Authorized]
    case Failing(_) => FailedTrail(trail)
    case Saved(out) => FinalTrail(out, trail)
    case Published(out) => FinalTrail(out, trail)
    case Done(out) => FinalTrail(out, trail)
  }

  ghost predicate FailedTrail(trail: seq<TxnStatus>) {
    trail == [Initiated, Failed] || trail == [Initiated, Authorized, Failed]
  }

  ghost predicate FinalTrail(out: Outcome, trail: seq<TxnStatus>) {
    match out
    case Paid => trail == [Initiated, Authorized, Captured]
    case Refused(_) => FailedTrail(trail)
    case Threw => trail == [] || trail == [Initiated]
    case _ => trail == []
  }

  /** What holds of a call's own locals at each point. */
  ghost predicate CallShape(env: Env, inv: Invocation, c: Call) {
    && PathShape(env, inv, c)
    && TrailFits(c.pc, c.trail)
    && MintShape(c)
  }

  ghost predicate PathShape(env: Env, inv: Invocation, c: Call) {
    && (c.pc.Start? <==> c.num == 0)
    && !c.pc.Unposted? && !c.pc.Restored?
    && (c.pc.Saved? ==> c.pc.out.Paid? || c.pc.out.Refused?)
    && (c.pc.Published? ==> c.pc.out.Paid? || c.pc.out.Refused?)
    && (Critical(c.pc) || c.pc.Waiting? ==> Buildable(inv))
    && (c.pc.Approved? || Moved(c.pc) ==> Buildable(inv) && Gate(env, inv) == Pass)
    && (Moved(c.pc) ==> 0 <= inv.amount.minor && inv.amount.ccy == env.opening[inv.payer].ccy)
  }

  /** Entry ids and sequence numbers are taken between the credit and the posting. */
  ghost predicate MintShape(c: Call) {
    && (c.creditId.Some? || c.creditSeq.Some? ==> c.debitId.Some? && c.debitSeq.Some?)
    && (c.debitId.Some? || c.debitSeq.Some? ==> Succeeded(c.pc))
    && (Succeeded(c.pc) && !c.pc.Credited? ==> AllMinted(c))
  }

  ghost predicate Shapes(cfg: Config, s: State)
    requires Sized(cfg, s)
  {
    && s.g.balances.Keys == cfg.env.opening.Keys
    && forall i :: 0 <= i < |s.calls| ==> CallShape(cfg.env, cfg.calls[i], s.calls[i])
  }

  /** The posting `pay` builds is always accepted. */
  lemma PostingAccepted(inv: Invocation, c: Call)
    requires AllMinted(c)
    ensures Ledger.PostStatus([DebitEntry(inv, c), CreditEntry(inv, c)]).Okay?
  {
    var d := DebitEntry(inv, c);
    var batch := [d, CreditEntry(inv, c)];
    assert batch[..1] == [d];
    assert [d][..0] == [];
    assert Ledger.Net([d]) == SignedMinor(d);
  }

  /** Each status change the service asks for is legal where it asks for it, so none is silently dropped. */
  lemma AdvancesAreLegal()
    ensures Advance([Initiated], Authorized) == [Initiated, Authorized]
    ensures Advance([Initiated, Authorized], Captured) == [Initiated, Authorized, Captured]
    ensures Advance([Initiated], Failed) == [Initiated, Failed]
    ensures Advance([Initiated, Authorized], Failed) == [Initiated, Authorized, Failed]
  {
  }

  /** Between the credit and the posting a call only mints, and then posts. */
  lemma CreditedStep(env: Env, inv: Invocation, me: nat, g: Shared, c: Call, seqFirst: bool)
    requires CanMove(env, inv, g, c) && c.pc.Credited?
    ensures var (g', c') := StepOf(env, inv, me, g, c, seqFirst);
            if AllMinted(c) then
              && c' == c.(pc := Posted)
              && g' == g.(journal := g.journal + [DebitEntry(inv, c), CreditEntry(inv, c)])
            else
              (g', c') == MintStep(g, c, seqFirst)
  {
    if AllMinted(c) {
      PostingAccepted(inv, c);
    }
  }

  /** Everywhere else no entry id and no sequence number is taken. */
  lemma NumbersStay(env: Env, inv: Invocation, me: nat, g: Shared, c: Call, b: bool)
    requires CanMove(env, inv, g, c) && !c.pc.Credited?
    ensures var (g', c') := StepOf(env, inv, me, g, c, b);
            && g'.nextTxn <= g.nextTxn + 1 && g'.nextEntry == g.nextEntry && g'.nextSeq == g.nextSeq
            && c'.debitId == c.debitId && c'.debitSeq == c.debitSeq
            && c'.creditId == c.creditId && c'.creditSeq == c.creditSeq
  {
    hide Gate, AfterDebit, AfterCredit, TxnOf, EventOf, MintStep;
  }

  lemma TrailStep(env: Env, inv: Invocation, me: nat, g: Shared, c: Call, seqFirst: bool)
    requires CanMove(env, inv, g, c) && !c.pc.Credited?
    requires PathShape(env, inv, c) && TrailFits(c.pc, c.trail)
    ensures var c' := StepOf(env, inv, me, g, c, seqFirst).1; TrailFits(c'.pc, c'.trail)
  {
    AdvancesAreLegal();
  }

  lemma PathStep(env: Env, inv: Invocation, me: nat, g: Shared, c: Call, seqFirst: bool)
    requires CanMove(env, inv, g, c) && !c.pc.Credited?
    requires 1 <= g.nextTxn
    requires g.balances.Keys == env.opening.Keys
    requires PathShape(env, inv, c)
    ensures PathShape(env, inv, StepOf(env, inv, me, g, c, seqFirst).1)
  {
    hide Advance, Ledger.PostStatus;
  }

  lemma NoAccountAppears(env: Env, inv: Invocation, me: nat, g: Shared, c: Call, seqFirst: bool)
    requires CanMove(env, inv, g, c) && !c.pc.Credited?
    requires g.balances.Keys == env.opening.Keys
    ensures StepOf(env, inv, me, g, c, seqFirst).0.balances.Keys == env.opening.Keys
  {
    hide Gate, Advance, Ledger.PostStatus;
  }

  lemma MintShapeStep(env: Env, inv: Invocation, me: nat, g: Shared, c: Call, seqFirst: bool)
    requires CanMove(env, inv, g, c) && !c.pc.Credited?
    requires PathShape(env, inv, c) && MintShape(c)
    ensures MintShape(StepOf(env, inv, me, g, c, seqFirst).1)
  {
    hide Gate, Advance, Ledger.PostStatus;
  }

  lemma ShapeStep(env: Env, inv: Invocation, me: nat, g: Shared, c: Call, seqFirst: bool)
    requires CanMove(env, inv, g, c)
    requires 1 <= g.nextTxn
    requires g.balances.Keys == env.opening.Keys
    requires CallShape(env, inv, c)
    ensures CallShape(env, inv, StepOf(env, inv, me, g, c, seqFirst).1)
    ensures StepOf(env, inv, me, g, c, seqFirst).0.balances.Keys == env.opening.Keys
  {
    if c.pc.Credited? {
      CreditedStep(env, inv, me, g, c, seqFirst);
    } else {
      TrailStep(env, inv, me, g, c, seqFirst);
      PathStep(env, inv, me, g, c, seqFirst);
      NoAccountAppears(env, inv, me, g, c, seqFirst);
      MintShapeStep(env, inv, me, g, c, seqFirst);
    }
  }

  /** Transaction numbers: each was minted once, by the call that carries it. */
  ghost predicate Ids(cfg: Config, s: State)
    requires Sized(cfg, s)
  {
    && 1 <= s.g.nextTxn
    && (forall i :: 0 <= i < |s.calls| && s.calls[i].num > 0 ==>
          s.calls[i].num < s.g.nextTxn && MintedBy(s, TxnId(s.calls[i].num), i))
    && (forall id :: id in s.h.minter ==>
          && s.h.minter[id] < |s.calls|
          && s.calls[s.h.minter[id]].num > 0
          && id == TxnId(s.calls[s.h.minter[id]].num))
  }

  ghost predicate Numbered(s: State) {
    forall j :: 0 <= j < |s.calls| && !s.calls[j].pc.Start? ==> s.calls[j].num > 0
  }

  ghost predicate MintedBy(s: State, id: string, i: int) {
    id in s.h.minter && s.h.minter[id] == i
  }

  /** The step relation as the invariants see it: call `i` moved and nobody else did. */
  ghost predicate OnlyMoved(cfg: Config, s: State, s': State, i: nat) {
    && Sized(cfg, s) && Sized(cfg, s')
    && i < |s.calls|
    && s'.calls == s.calls[i := s'.calls[i]]
  }

  ghost predicate IdsMove(s: State, s': State, i: nat)
    requires i < |s.calls| && i < |s'.calls|
  {
    if s.calls[i].pc.Start? then
      && s'.calls[i].num == s.g.nextTxn
      && s'.g.nextTxn == s.g.nextTxn + 1
      && s'.h.minter == s.h.minter[TxnId(s.g.nextTxn) := i]
    else
      && s'.calls[i].num == s.calls[i].num
      && s'.g.nextTxn == s.g.nextTxn
      && s'.h.minter == s.h.minter
  }

  lemma IdsKept(cfg: Config, s: State, s': State, i: nat)
    requires OnlyMoved(cfg, s, s', i) && IdsMove(s, s', i)
    requires s.calls[i].pc.Start? <==> s.calls[i].num == 0
    requires Ids(cfg, s)
    ensures Ids(cfg, s')
    ensures forall id :: id in s.h.minter ==> id in s'.h.minter && s'.h.minter[id] == s.h.minter[id]
  {
    if s.calls[i].pc.Start? {
      var id := TxnId(s.g.nextTxn);
      if id in s.h.minter {
        Stores.IdTextInjective("txn", s.g.nextTxn, s.calls[s.h.minter[id]].num);
        assert false;
      }
    }
    forall j | 0 <= j < |s'.calls| && s'.calls[j].num > 0
      ensures s'.calls[j].num < s'.g.nextTxn && MintedBy(s', TxnId(s'.calls[j].num), j)
    {
      assert s.calls[j].num > 0 ==> MintedBy(s, TxnId(s.calls[j].num), j);
    }
  }

  /** Idempotency keys: each claimed key has exactly one winner, and the store names its transaction. */
  ghost predicate Keys(cfg: Config, s: State)
    requires Sized(cfg, s)
  {
    && s.h.owner.Keys == s.g.keys.Keys
    && (forall k :: k in s.h.owner ==>
          && s.h.owner[k] < |s.calls|
          && Winner(s.calls[s.h.owner[k]].pc)
          && cfg.calls[s.h.owner[k]].key == k
          && s.g.keys[k] == TxnId(s.calls[s.h.owner[k]].num))
    && (forall i :: 0 <= i < |s.calls| && Winner(s.calls[i].pc) ==> OwnedBy(s, cfg.calls[i].key, i))
    && (forall i :: 0 <= i < |s.calls| ==> LookupShape(cfg.calls[i], s.g, s.calls[i].pc))
  }

  ghost predicate OwnedBy(s: State, key: string, i: int) {
    key in s.h.owner && s.h.owner[key] == i
  }

  ghost predicate LookupShape(inv: Invocation, g: Shared, pc: Pc) {
    && (pc.Beaten? || pc.Looking? || pc.Done? || Winner(pc) ==> inv.key in g.keys)
    && (pc.Looking? ==> pc.existing == g.keys[inv.key])
  }

  ghost predicate KeysMove(inv: Invocation, s: State, s': State, i: nat)
    requires i < |s.calls| && i < |s'.calls|
  {
    && (if s.calls[i].pc.Minted? && inv.key !in s.g.keys then
          && s'.g.keys == s.g.keys[inv.key := TxnId(s.calls[i].num)]
          && s'.h.owner == s.h.owner[inv.key := i]
          && Winner(s'.calls[i].pc)
        else
          && s'.g.keys == s.g.keys
          && s'.h.owner == s.h.owner
          && (Winner(s'.calls[i].pc) <==> Winner(s.calls[i].pc)))
    && (Winner(s'.calls[i].pc) ==> s'.calls[i].num == s.calls[i].num)
    && LookupShape(inv, s'.g, s'.calls[i].pc)
  }

  lemma WinnersKept(cfg: Config, s: State, s': State, i: nat)
    requires OnlyMoved(cfg, s, s', i) && KeysMove(cfg.calls[i], s, s', i)
    requires Keys(cfg, s)
    ensures forall k :: k in s.h.owner ==> k in s'.h.owner && s'.h.owner[k] == s.h.owner[k]
    ensures forall j :: 0 <= j < |s'.calls| && Winner(s'.calls[j].pc) ==> OwnedBy(s', cfg.calls[j].key, j)
  {
    forall j | 0 <= j < |s'.calls| && Winner(s'.calls[j].pc)
      ensures OwnedBy(s', cfg.calls[j].key, j)
    {
      if Winner(s.calls[j].pc) {
        assert OwnedBy(s, cfg.calls[j].key, j);
      }
    }
  }

  lemma KeysKept(cfg: Config, s: State, s': State, i: nat)
    requires OnlyMoved(cfg, s, s', i) && KeysMove(cfg.calls[i], s, s', i)
    requires Keys(cfg, s)
    ensures Keys(cfg, s')
    ensures forall k :: k in s.h.owner ==> k in s'.h.owner && s'.h.owner[k] == s.h.owner[k]
  {
    WinnersKept(cfg, s, s', i);
    forall j | 0 <= j < |s'.calls|
      ensures LookupShape(cfg.calls[j], s'.g, s'.calls[j].pc)
    {
      assert LookupShape(cfg.calls[j], s.g, s.calls[j].pc);
    }
  }

  /** Locks: a payer's lock is held exactly by the call of that payer that is in its critical part. */
  ghost predicate Locks(cfg: Config, s: State)
    requires Sized(cfg, s)
  {
    && (forall i :: 0 <= i < |s.calls| && Critical(s.calls[i].pc) ==> HeldBy(s.g, LockKey(cfg.calls[i].payer), i))
    && (forall k :: k in s.g.locks && s.g.locks[k].Some? ==>
          && s.g.locks[k].value < |s.calls|
          && Critical(s.calls[s.g.locks[k].value].pc)
          && k == LockKey(cfg.calls[s.g.locks[k].value].payer))
  }

  ghost predicate HeldBy(g: Shared, key: string, i: int) {
    key in g.locks && g.locks[key].Some? && g.locks[key].value == i
  }

  lemma LockKeyInjective(a: string, b: string)
    requires LockKey(a) == LockKey(b)
    ensures a == b
  {
    var k := |"account:"|;
    assert LockKey(a)[k..] == a && LockKey(b)[k..] == b;
  }

  ghost predicate LocksMove(inv: Invocation, s: State, s': State, i: nat)
    requires i < |s.calls| && i < |s'.calls|
  {
    var key := LockKey(inv.payer);
    if s.calls[i].pc.Waiting? then
      && (key in s.g.locks ==> s.g.locks[key].None?)
      && s'.g.locks == s.g.locks[key := Some(i)]
      && Critical(s'.calls[i].pc)
    else if Critical(s.calls[i].pc) && s'.calls[i].pc.Done? then
      s'.g.locks == s.g.locks[key := None]
    else
      && s'.g.locks == s.g.locks
      && (Critical(s.calls[i].pc) <==> Critical(s'.calls[i].pc))
  }

  lemma LocksKept(cfg: Config, s: State, s': State, i: nat)
    requires OnlyMoved(cfg, s, s', i) && LocksMove(cfg.calls[i], s, s', i)
    requires Locks(cfg, s)
    ensures Locks(cfg, s')
  {
    assert Critical(s.calls[i].pc) ==> HeldBy(s.g, LockKey(cfg.calls[i].payer), i);
    forall j | 0 <= j < |s'.calls| && Critical(s'.calls[j].pc)
      ensures HeldBy(s'.g, LockKey(cfg.calls[j].payer), j)
    {
      assert Critical(s.calls[j].pc) ==> HeldBy(s.g, LockKey(cfg.calls[j].payer), j);
    }
  }

  /** Mutual exclusion: two calls of one payer are never in their critical parts together. */
  lemma OneCriticalPerPayer(cfg: Config, s: State, i: nat, j: nat)
    requires Sized(cfg, s) && Locks(cfg, s)
    requires i < |s.calls| && j < |s.calls|
    requires Critical(s.calls[i].pc) && Critical(s.calls[j].pc)
    requires cfg.calls[i].payer == cfg.calls[j].payer
    ensures i == j
  {
    assert HeldBy(s.g, LockKey(cfg.calls[i].payer), i);
    assert HeldBy(s.g, LockKey(cfg.calls[j].payer), j);
  }

  /** Transaction store: it holds exactly the transactions of the calls that saved one, as they are. */
  ghost predicate Repository(cfg: Config, s: State)
    requires Sized(cfg, s)
  {
    && SavedAreStored(cfg, s)
    && StoredAreSaved(s)
    && (forall i :: 0 <= i < |s.calls| ==> ReplayShape(cfg, s, i))
  }

  ghost predicate SavedAreStored(cfg: Config, s: State)
    requires Sized(cfg, s)
  {
    forall i :: 0 <= i < |s.calls| && Stored(s.calls[i].pc) ==>
      Holds(s.g, TxnId(s.calls[i].num), TxnOf(cfg.calls[i], s.calls[i]))
  }

  ghost predicate StoredAreSaved(s: State) {
    forall id :: id in s.g.txns ==>
      id in s.h.minter && s.h.minter[id] < |s.calls| && Stored(s.calls[s.h.minter[id]].pc)
  }

  ghost predicate Holds(g: Shared, id: string, t: Transaction) {
    id in g.txns && g.txns[id] == t
  }

  /** A replay hands out the transaction its key's winner stored. */
  ghost predicate ReplayShape(cfg: Config, s: State, i: int)
    requires Sized(cfg, s) && 0 <= i < |s.calls|
  {
    s.calls[i].pc.Done? && s.calls[i].pc.out.Replayed? ==>
      && cfg.calls[i].key in s.h.owner
      && var w := s.h.owner[cfg.calls[i].key];
         w < |s.calls| && Stored(s.calls[w].pc) && s.calls[i].pc.out.txn == TxnOf(cfg.calls[w], s.calls[w])
  }

  ghost predicate RepositoryMove(inv: Invocation, s: State, s': State, i: nat)
    requires i < |s.calls| && i < |s'.calls|
  {
    var c, c' := s.calls[i], s'.calls[i];
    && (if c.pc.Posted? || c.pc.Failing? then
          && s'.g.txns == s.g.txns[TxnId(c.num) := TxnOf(inv, c')]
          && Stored(c'.pc)
        else
          && s'.g.txns == s.g.txns
          && (Stored(c'.pc) <==> Stored(c.pc))
          && (Stored(c.pc) ==> c'.trail == c.trail))
    && (c.pc.Posted? || c.pc.Failing? || Stored(c.pc) ==> c.num > 0 && c'.num == c.num)
    && (c'.pc.Done? && c'.pc.out.Replayed? ==>
          c.pc.Looking? && Holds(s.g, c.pc.existing, c'.pc.out.txn))
  }

  /** Claims and mintings are never taken back. */
  ghost predicate Grows(h: History, h': History) {
    && (forall k :: k in h.owner ==> k in h'.owner && h'.owner[k] == h.owner[k])
    && (forall id :: id in h.minter ==> id in h'.minter && h'.minter[id] == h.minter[id])
  }

  lemma SavedKept(cfg: Config, s: State, s': State, i: nat)
    requires OnlyMoved(cfg, s, s', i) && RepositoryMove(cfg.calls[i], s, s', i) && Grows(s.h, s'.h)
    requires Numbered(s)
    requires Ids(cfg, s) && SavedAreStored(cfg, s)
    ensures SavedAreStored(cfg, s')
  {
    var id := TxnId(s.calls[i].num);
    assert s.calls[i].num > 0 ==> MintedBy(s, id, i);
    forall j | 0 <= j < |s'.calls| && Stored(s'.calls[j].pc)
      ensures Holds(s'.g, TxnId(s'.calls[j].num), TxnOf(cfg.calls[j], s'.calls[j]))
    {
      if j != i {
        assert MintedBy(s, TxnId(s.calls[j].num), j);
        assert Holds(s.g, TxnId(s.calls[j].num), TxnOf(cfg.calls[j], s.calls[j]));
      } else if Stored(s.calls[i].pc) {
        assert Holds(s.g, id, TxnOf(cfg.calls[i], s.calls[i]));
      }
    }
  }

  lemma StoredKept(cfg: Config, s: State, s': State, i: nat)
    requires OnlyMoved(cfg, s, s', i) && RepositoryMove(cfg.calls[i], s, s', i) && Grows(s.h, s'.h)
    requires Ids(cfg, s) && StoredAreSaved(s)
    ensures StoredAreSaved(s')
  {
    assert s.calls[i].num > 0 ==> MintedBy(s, TxnId(s.calls[i].num), i);
  }

  lemma RepositoryKept(cfg: Config, s: State, s': State, i: nat)
    requires OnlyMoved(cfg, s, s', i) && RepositoryMove(cfg.calls[i], s, s', i) && Grows(s.h, s'.h)
    requires Numbered(s)
    requires Ids(cfg, s) && Keys(cfg, s) && Repository(cfg, s)
    ensures Repository(cfg, s')
  {
    SavedKept(cfg, s, s', i);
    StoredKept(cfg, s, s', i);
    forall j | 0 <= j < |s'.calls|
      ensures ReplayShape(cfg, s', j)
    {
      ReplayKept(cfg, s, s', i, j);
    }
  }

  /** What a call has saved stays as it is. */
  lemma SavedStays(cfg: Config, s: State, s': State, i: nat, w: nat)
    requires OnlyMoved(cfg, s, s', i) && RepositoryMove(cfg.calls[i], s, s', i)
    requires w < |s.calls| && Stored(s.calls[w].pc)
    ensures Stored(s'.calls[w].pc) && TxnOf(cfg.calls[w], s'.calls[w]) == TxnOf(cfg.calls[w], s.calls[w])
  {
    hide TxnId;
  }

  /** The transaction found under the winner's id is the winner's. */
  lemma FoundIsSaved(cfg: Config, s: State, w: nat)
    requires Sized(cfg, s) && Numbered(s) && Ids(cfg, s) && SavedAreStored(cfg, s) && StoredAreSaved(s)
    requires w < |s.calls| && s.calls[w].num > 0 && TxnId(s.calls[w].num) in s.g.txns
    ensures Stored(s.calls[w].pc) && s.g.txns[TxnId(s.calls[w].num)] == TxnOf(cfg.calls[w], s.calls[w])
  {
    hide TxnId;
    assert MintedBy(s, TxnId(s.calls[w].num), w);
    assert Holds(s.g, TxnId(s.calls[w].num), TxnOf(cfg.calls[w], s.calls[w]));
  }

  /** The step that answers call i with a replay. */
  lemma ReplayBegins(cfg: Config, s: State, s': State, i: nat)
    requires OnlyMoved(cfg, s, s', i) && RepositoryMove(cfg.calls[i], s, s', i)
    requires Numbered(s) && Ids(cfg, s) && Keys(cfg, s) && Repository(cfg, s)
    requires s'.calls[i].pc.Done? && s'.calls[i].pc.out.Replayed?
    ensures cfg.calls[i].key in s.h.owner
    ensures var w := s.h.owner[cfg.calls[i].key];
            w < |s.calls| && Stored(s.calls[w].pc) && s'.calls[i].pc.out.txn == TxnOf(cfg.calls[w], s.calls[w])
  {
    hide TxnId, TxnOf, ReplayShape;
    assert LookupShape(cfg.calls[i], s.g, s.calls[i].pc);
    FoundIsSaved(cfg, s, s.h.owner[cfg.calls[i].key]);
  }

  lemma ReplayKept(cfg: Config, s: State, s': State, i: nat, j: nat)
    requires OnlyMoved(cfg, s, s', i) && RepositoryMove(cfg.calls[i], s, s', i) && Grows(s.h, s'.h)
    requires j < |s.calls| && Numbered(s)
    requires Ids(cfg, s) && Keys(cfg, s) && Repository(cfg, s)
    ensures ReplayShape(cfg, s', j)
  {
    hide RepositoryMove, TxnOf, Ids, Keys, SavedAreStored, StoredAreSaved;
    assert ReplayShape(cfg, s, j);
    if s'.calls[j].pc.Done? && s'.calls[j].pc.out.Replayed? {
      if j == i {
        ReplayBegins(cfg, s, s', i);
      }
      SavedStays(cfg, s, s', i, s.h.owner[cfg.calls[j].key]);
    }
  }

  // ----- Every step of the machine is one of these moves -----

  lemma StepMovesIds(cfg: Config, s: State, i: nat, b: bool)
    requires Sized(cfg, s) && Enabled(cfg, s, i)
    ensures OnlyMoved(cfg, s, Next(cfg, s, i, b), i)
    ensures IdsMove(s, Next(cfg, s, i, b), i)
  {
    hide Gate, Advance, Ledger.PostStatus;
  }

  lemma StepMovesKeys(cfg: Config, s: State, i: nat, b: bool)
    requires Sized(cfg, s) && Enabled(cfg, s, i) && !s.calls[i].pc.Credited?
    requires PathShape(cfg.env, cfg.calls[i], s.calls[i])
    requires LookupShape(cfg.calls[i], s.g, s.calls[i].pc)
    ensures KeysMove(cfg.calls[i], s, Next(cfg, s, i, b), i)
  {
    hide Gate, Advance, Ledger.PostStatus, AfterDebit, AfterCredit, TxnOf, EventOf, MintStep;
  }

  lemma StepMovesLocks(cfg: Config, s: State, i: nat, b: bool)
    requires Sized(cfg, s) && Enabled(cfg, s, i) && !s.calls[i].pc.Credited?
    ensures LocksMove(cfg.calls[i], s, Next(cfg, s, i, b), i)
  {
    hide Gate, Advance, Ledger.PostStatus;
  }

  lemma StepMovesRepository(cfg: Config, s: State, i: nat, b: bool)
    requires Sized(cfg, s) && Enabled(cfg, s, i) && !s.calls[i].pc.Credited?
    requires PathShape(cfg.env, cfg.calls[i], s.calls[i])
    ensures RepositoryMove(cfg.calls[i], s, Next(cfg, s, i, b), i)
  {
    hide Gate, Ledger.PostStatus, AfterDebit, AfterCredit, EventOf, MintStep, TxnId;
  }

  /** Minting and posting touch none of these stores. */
  lemma CreditedMoves(cfg: Config, s: State, i: nat, b: bool)
    requires Sized(cfg, s) && Enabled(cfg, s, i) && s.calls[i].pc.Credited?
    requires PathShape(cfg.env, cfg.calls[i], s.calls[i])
    requires LookupShape(cfg.calls[i], s.g, s.calls[i].pc)
    ensures KeysMove(cfg.calls[i], s, Next(cfg, s, i, b), i)
    ensures LocksMove(cfg.calls[i], s, Next(cfg, s, i, b), i)
    ensures RepositoryMove(cfg.calls[i], s, Next(cfg, s, i, b), i)
  {
    hide Gate, Advance, Ledger.PostStatus;
    CreditedStep(cfg.env, cfg.calls[i], i, s.g, s.calls[i], b);
  }

  lemma StepMoves(cfg: Config, s: State, i: nat, b: bool)
    requires Sized(cfg, s) && Enabled(cfg, s, i)
    requires PathShape(cfg.env, cfg.calls[i], s.calls[i])
    requires LookupShape(cfg.calls[i], s.g, s.calls[i].pc)
    ensures OnlyMoved(cfg, s, Next(cfg, s, i, b), i)
    ensures IdsMove(s, Next(cfg, s, i, b), i)
    ensures KeysMove(cfg.calls[i], s, Next(cfg, s, i, b), i)
    ensures LocksMove(cfg.calls[i], s, Next(cfg, s, i, b), i)
    ensures RepositoryMove(cfg.calls[i], s, Next(cfg, s, i, b), i)
  {
    StepMovesIds(cfg, s, i, b);
    if s.calls[i].pc.Credited? {
      CreditedMoves(cfg, s, i, b);
    } else {
      StepMovesKeys(cfg, s, i, b);
      StepMovesLocks(cfg, s, i, b);
      StepMovesRepository(cfg, s, i, b);
    }
  }

  /** The part of the invariant that needs no arithmetic. */
  ghost predicate Coherent(cfg: Config, s: State) {
    && Sized(cfg, s)
    && Shapes(cfg, s)
    && Ids(cfg, s)
    && Keys(cfg, s)
    && Locks(cfg, s)
    && Repository(cfg, s)
  }

  lemma CoherentInit(cfg: Config)
    ensures Coherent(cfg, Init(cfg))
  {
  }

  lemma ShapesStep(cfg: Config, s: State, i: nat, b: bool)
    requires Coherent(cfg, s) && Enabled(cfg, s, i)
    ensures Shapes(cfg, Next(cfg, s, i, b))
  {
    ShapeStep(cfg.env, cfg.calls[i], i, s.g, s.calls[i], b);
  }

  lemma CoherentStep(cfg: Config, s: State, i: nat, b: bool)
    requires Coherent(cfg, s) && Enabled(cfg, s, i)
    ensures Coherent(cfg, Next(cfg, s, i, b))
    ensures Grows(s.h, Next(cfg, s, i, b).h)
  {
    assert CallShape(cfg.env, cfg.calls[i], s.calls[i]);
    assert LookupShape(cfg.calls[i], s.g, s.calls[i].pc);
    StepMoves(cfg, s, i, b);
    ShapesStep(cfg, s, i, b);
    CoherentKept(cfg, s, Next(cfg, s, i, b), i);
  }

  lemma CoherentKept(cfg: Config, s: State, s': State, i: nat)
    requires Coherent(cfg, s) && Sized(cfg, s') && Shapes(cfg, s')
    requires OnlyMoved(cfg, s, s', i)
    requires IdsMove(s, s', i) && KeysMove(cfg.calls[i], s, s', i) && LocksMove(cfg.calls[i], s, s', i)
    requires RepositoryMove(cfg.calls[i], s, s', i)
    ensures Coherent(cfg, s') && Grows(s.h, s'.h)
  {
    forall j | 0 <= j < |s.calls|
      ensures s.calls[j].pc.Start? <==> s.calls[j].num == 0
    {
      assert CallShape(cfg.env, cfg.calls[j], s.calls[j]);
    }
    IdsKept(cfg, s, s', i);
    KeysKept(cfg, s, s', i);
    LocksKept(cfg, s, s', i);
    RepositoryKept(cfg, s, s', i);
  }

  /** The invariant holds after every schedule. */
  lemma {:induction false} AlwaysCoherent(cfg: Config, sched: seq<Pick>)
    ensures Coherent(cfg, Exec(cfg, sched))
  {
    if sched == [] {
      CoherentInit(cfg);
    } else {
      var before := Exec(cfg, sched[..|sched| - 1]);
      var p := sched[|sched| - 1];
      AlwaysCoherent(cfg, sched[..|sched| - 1]);
      if Enabled(cfg, before, p.call) {
        CoherentStep(cfg, before, p.call, p.seqFirst);
      }
    }
  }
}
