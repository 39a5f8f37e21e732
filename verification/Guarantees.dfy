/** What the service promises, stated about the state any schedule reaches. Each promise is a predicate on
    states; it is derived from the invariants first and then claimed for every reachable state. */
module Guarantees {
  import opened Common
  import opened Lifecycle
  import opened Domain
  import opened Protocol
  import opened ProtocolInvariant
  import opened Books
  import opened Histories
  import Stores
  import Ledger

  ghost predicate AllDone(s: State) {
    forall i :: 0 <= i < |s.calls| ==> s.calls[i].pc.Done?
  }

  // ----- Exactly once per key -----

  /** Of all calls with one idempotency key at most one ever wins it, moves money or saves a transaction. */
  ghost predicate OnePerKey(cfg: Config, s: State)
    requires Sized(cfg, s)
  {
    forall i, j :: 0 <= i < j < |s.calls| && cfg.calls[i].key == cfg.calls[j].key ==>
      && !(Winner(s.calls[i].pc) && Winner(s.calls[j].pc))
      && !(Moved(s.calls[i].pc) && Moved(s.calls[j].pc))
      && !(Stored(s.calls[i].pc) && Stored(s.calls[j].pc))
  }

  lemma MoversWin(pc: Pc)
    ensures Moved(pc) || Stored(pc) ==> Winner(pc)
  {
  }

  lemma OnePerKeyFrom(cfg: Config, s: State)
    requires Sized(cfg, s) && Keys(cfg, s)
    ensures OnePerKey(cfg, s)
  {
    forall i, j | 0 <= i < j < |s.calls| && cfg.calls[i].key == cfg.calls[j].key
      ensures !(Winner(s.calls[i].pc) && Winner(s.calls[j].pc))
      ensures !(Moved(s.calls[i].pc) && Moved(s.calls[j].pc))
      ensures !(Stored(s.calls[i].pc) && Stored(s.calls[j].pc))
    {
      assert Winner(s.calls[i].pc) ==> OwnedBy(s, cfg.calls[i].key, i);
      assert Winner(s.calls[j].pc) ==> OwnedBy(s, cfg.calls[j].key, j);
      MoversWin(s.calls[i].pc);
      MoversWin(s.calls[j].pc);
    }
  }

  lemma ExactlyOncePerKey(cfg: Config, s: State)
    requires Reachable(cfg, s)
    ensures OnePerKey(cfg, s)
  {
    var sched :| s == Exec(cfg, sched);
    AlwaysCoherent(cfg, sched);
    OnePerKeyFrom(cfg, s);
  }

  /** A finished call that did not win its key got the duplicate-request error or the transaction the winner
      stored, and that transaction is final: CAPTURED or, since replays do not look, FAILED. */
  ghost predicate LoserReplays(cfg: Config, s: State, i: nat)
    requires Sized(cfg, s) && i < |s.calls|
  {
    s.calls[i].pc.Done? && !Winner(s.calls[i].pc) ==>
      && cfg.calls[i].key in s.h.owner
      && var w := s.h.owner[cfg.calls[i].key];
         && w < |cfg.calls| && w != i && cfg.calls[w].key == cfg.calls[i].key && Winner(s.calls[w].pc)
         && (|| s.calls[i].pc.out == Duplicate
             || (&& s.calls[i].pc.out == Replayed(TxnOf(cfg.calls[w], s.calls[w]))
                 && Holds(s.g, TxnId(s.calls[w].num), s.calls[i].pc.out.txn)
                 && s.calls[i].pc.out.txn.status in {Captured, Failed}))
  }

  /** A key's winner that has saved its transaction has it in the repository, in a final state. */
  lemma SavedIsFinal(cfg: Config, s: State, w: nat)
    requires Sized(cfg, s) && Shapes(cfg, s) && SavedAreStored(cfg, s)
    requires w < |s.calls| && Stored(s.calls[w].pc)
    ensures Holds(s.g, TxnId(s.calls[w].num), TxnOf(cfg.calls[w], s.calls[w]))
    ensures TxnOf(cfg.calls[w], s.calls[w]).status in {Captured, Failed}
  {
    assert CallShape(cfg.env, cfg.calls[w], s.calls[w]);
    LegalLifecycleFrom(cfg.env, cfg.calls[w], s.calls[w]);
  }

  lemma LoserHasWinner(cfg: Config, s: State, i: nat)
    requires Sized(cfg, s) && Keys(cfg, s) && i < |s.calls|
    requires s.calls[i].pc.Done? && !Winner(s.calls[i].pc)
    ensures cfg.calls[i].key in s.h.owner
    ensures var w := s.h.owner[cfg.calls[i].key];
            w < |cfg.calls| && w != i && cfg.calls[w].key == cfg.calls[i].key && Winner(s.calls[w].pc)
  {
    assert LookupShape(cfg.calls[i], s.g, s.calls[i].pc);
  }

  lemma LoserReplaysFrom(cfg: Config, s: State, i: nat)
    requires Sized(cfg, s) && Shapes(cfg, s) && Keys(cfg, s) && Repository(cfg, s) && i < |s.calls|
    ensures LoserReplays(cfg, s, i)
  {
    if s.calls[i].pc.Done? && !Winner(s.calls[i].pc) {
      LoserHasWinner(cfg, s, i);
      assert ReplayShape(cfg, s, i);
      if s.calls[i].pc.out.Replayed? {
        SavedIsFinal(cfg, s, s.h.owner[cfg.calls[i].key]);
      }
    }
  }

  lemma LosersReplay(cfg: Config, s: State, i: nat)
    requires Reachable(cfg, s) && i < |cfg.calls|
    ensures LoserReplays(cfg, s, i)
  {
    var sched :| s == Exec(cfg, sched);
    AlwaysCoherent(cfg, sched);
    LoserReplaysFrom(cfg, s, i);
  }

  /** A step that leaves a call without its key changes nothing shared but the id counter. */
  lemma LosersMoveNothing(env: Env, inv: Invocation, me: nat, g: Shared, c: Call, b: bool)
    requires CanMove(env, inv, g, c) && !Winner(c.pc)
    requires !Winner(StepOf(env, inv, me, g, c, b).1.pc)
    ensures var g' := StepOf(env, inv, me, g, c, b).0;
            g' == g.(nextTxn := g'.nextTxn)
  {
    assert c.pc.Start? || c.pc.Minted? || c.pc.Beaten? || c.pc.Looking?;
  }

  // ----- Lifecycle and the compensation branch -----

  /** A call's status history is a path of the transition table with at most two moves and ends where its
      outcome says; the branch that undoes a rejected posting is never entered. */
  ghost predicate LegalLifecycle(c: Call) {
    && (c.trail == [] || (IsHistory(c.trail) && |c.trail| <= 3))
    && !c.pc.Unposted? && !c.pc.Restored?
    && (Stored(c.pc) ==> c.trail != [] && StatusOf(c) == if c.pc.out.Paid? then Captured else Failed)
  }

  lemma LegalLifecycleFrom(env: Env, inv: Invocation, c: Call)
    requires CallShape(env, inv, c)
    ensures LegalLifecycle(c)
  {
  }

  lemma LifecyclesAreLegal(cfg: Config, s: State, i: nat)
    requires Reachable(cfg, s) && i < |cfg.calls|
    ensures LegalLifecycle(s.calls[i])
  {
    var sched :| s == Exec(cfg, sched);
    AlwaysCoherent(cfg, sched);
    assert CallShape(cfg.env, cfg.calls[i], s.calls[i]);
    LegalLifecycleFrom(cfg.env, cfg.calls[i], s.calls[i]);
  }

  /** A step that authorizes, fails or captures appends that very status to the history. */
  ghost predicate AdvanceTaken(c: Call, c': Call) {
    && (c'.pc.Approved? ==> c'.trail == c.trail + [Authorized])
    && (c'.pc.Failing? ==> c'.trail == c.trail + [Failed])
    && (c.pc.Posted? ==> c'.trail == c.trail + [Captured])
  }

  lemma ShapedAdvances(env: Env, inv: Invocation, me: nat, g: Shared, c: Call, b: bool)
    requires CallShape(env, inv, c) && CanMove(env, inv, g, c)
    ensures AdvanceTaken(c, StepOf(env, inv, me, g, c, b).1)
  {
    AdvancesAreLegal();
  }

  /** In no run is a status change silently dropped. */
  lemma NoAdvanceIsDropped(cfg: Config, s: State, i: nat, b: bool)
    requires Reachable(cfg, s) && Enabled(cfg, s, i)
    ensures AdvanceTaken(s.calls[i], Next(cfg, s, i, b).calls[i])
  {
    hide Exec, StepOf;
    var sched :| s == Exec(cfg, sched);
    AlwaysCoherent(cfg, sched);
    assert CallShape(cfg.env, cfg.calls[i], s.calls[i]);
    ShapedAdvances(cfg.env, cfg.calls[i], i, s.g, s.calls[i], b);
  }

  // ----- Order agreement -----

  /** The transactions that debited an account, in journal order. */
  function DebitOrder(journal: seq<LedgerEntry>, account: string): seq<string> {
    if journal == [] then []
    else
      var e := journal[|journal| - 1];
      var rest := DebitOrder(journal[..|journal| - 1], account);
      if e.direction == Debit && e.account == account then rest + [e.txnId] else rest
  }

  /** The transactions of a payer with a PaymentCaptured event, in log order. */
  function CapturedOrder(events: seq<DomainEvent>, txns: map<string, Transaction>, payer: string): seq<string> {
    if events == [] then []
    else
      var e := events[|events| - 1];
      var rest := CapturedOrder(events[..|events| - 1], txns, payer);
      if e.kind == PaymentCaptured && e.aggregateId in txns && txns[e.aggregateId].payer == payer
      then rest + [e.aggregateId] else rest
  }

  function IdsOf(calls: seq<Call>, list: seq<nat>): (ids: seq<string>)
    ensures |ids| == |list|
  {
    if list == [] then []
    else
      var i := list[|list| - 1];
      IdsOf(calls, list[..|list| - 1]) + [if i < |calls| then TxnId(calls[i].num) else ""]
  }

  lemma {:induction false} IdsOfAppend(calls: seq<Call>, a: seq<nat>, b: seq<nat>)
    ensures IdsOf(calls, a + b) == IdsOf(calls, a) + IdsOf(calls, b)
  {
    if b == [] {
      assert a + b == a;
    } else {
      assert (a + b)[..|a + b| - 1] == a + b[..|b| - 1];
      IdsOfAppend(calls, a, b[..|b| - 1]);
    }
  }

  lemma OneId(calls: seq<Call>, i: nat)
    requires i < |calls|
    ensures IdsOf(calls, [i]) == [TxnId(calls[i].num)]
  {
    assert [i][..0] == [];
  }

  lemma DebitOrderPair(journal: seq<LedgerEntry>, d: LedgerEntry, c: LedgerEntry, account: string)
    requires d.direction == Debit && c.direction == Credit
    ensures DebitOrder(journal + [d, c], account)
         == DebitOrder(journal, account) + (if d.account == account then [d.txnId] else [])
  {
    var all := journal + [d, c];
    assert all[..|all| - 1] == journal + [d];
    assert (journal + [d])[..|journal|] == journal;
  }

  lemma DebitOrderGrows(cfg: Config, s: State, k: nat, payer: string)
    requires Sized(cfg, s) && JournalFits(cfg, s) && k < |s.h.posted|
    ensures s.h.posted[k] < |s.calls|
    ensures DebitOrder(s.g.journal[..2 * (k + 1)], payer) == DebitOrder(s.g.journal[..2 * k], payer)
      + (if cfg.calls[s.h.posted[k]].payer == payer then [TxnId(s.calls[s.h.posted[k]].num)] else [])
  {
    assert PairAt(cfg, s, k);
    var d, c := s.g.journal[2 * k], s.g.journal[2 * k + 1];
    assert s.g.journal[..2 * (k + 1)] == s.g.journal[..2 * k] + [d, c];
    DebitOrderPair(s.g.journal[..2 * k], d, c, payer);
  }

  lemma PostedIdsGrow(cfg: Config, s: State, k: nat, payer: string)
    requires Sized(cfg, s) && k < |s.h.posted| && s.h.posted[k] < |s.calls|
    ensures IdsOf(s.calls, PostedBy(cfg, s.h.posted[..k + 1], payer))
         == IdsOf(s.calls, PostedBy(cfg, s.h.posted[..k], payer))
      + (if cfg.calls[s.h.posted[k]].payer == payer then [TxnId(s.calls[s.h.posted[k]].num)] else [])
  {
    var i := s.h.posted[k];
    assert s.h.posted[..k + 1] == s.h.posted[..k] + [i];
    PostedByAppend(cfg, s.h.posted[..k], i, payer);
    IdsOfAppend(s.calls, PostedBy(cfg, s.h.posted[..k], payer), [i]);
  }

  lemma NothingYet(cfg: Config, s: State, payer: string)
    ensures DebitOrder(s.g.journal[..0], payer) == IdsOf(s.calls, PostedBy(cfg, s.h.posted[..0], payer))
    ensures CapturedOrder(s.g.events[..0], s.g.txns, payer) == IdsOf(s.calls, CapturedBy(cfg, s.h.logged[..0], payer))
  {
  }

  lemma {:induction false} DebitOrderIsPosted(cfg: Config, s: State, k: nat, payer: string)
    requires Sized(cfg, s) && JournalFits(cfg, s) && k <= |s.h.posted|
    ensures DebitOrder(s.g.journal[..2 * k], payer) == IdsOf(s.calls, PostedBy(cfg, s.h.posted[..k], payer))
  {
    hide JournalFits, DebitOrder, PostedBy, IdsOf;
    NothingYet(cfg, s, payer);
    if 0 < k {
      DebitOrderIsPosted(cfg, s, k - 1, payer);
      DebitOrderGrows(cfg, s, k - 1, payer);
      PostedIdsGrow(cfg, s, k - 1, payer);
    }
  }

  lemma CapturedOrderAppend(events: seq<DomainEvent>, e: DomainEvent, txns: map<string, Transaction>, payer: string)
    ensures CapturedOrder(events + [e], txns, payer) == CapturedOrder(events, txns, payer)
      + (if e.kind == PaymentCaptured && e.aggregateId in txns && txns[e.aggregateId].payer == payer
         then [e.aggregateId] else [])
  {
    assert (events + [e])[..|events|] == events;
  }

  /** The transaction the k-th event announces, if it is a capture and of this payer. */
  function AnnouncedAt(cfg: Config, s: State, k: nat, payer: string): seq<string>
    requires Sized(cfg, s) && k < |s.h.logged| && s.h.logged[k].call < |s.calls|
  {
    var l := s.h.logged[k];
    if l.paid && cfg.calls[l.call].payer == payer then [TxnId(s.calls[l.call].num)] else []
  }

  lemma CapturedOrderGrows(cfg: Config, s: State, k: nat, payer: string)
    requires Sized(cfg, s) && LogFits(cfg, s) && SavedAreStored(cfg, s) && k < |s.h.logged|
    ensures s.h.logged[k].call < |s.calls|
    ensures CapturedOrder(s.g.events[..k + 1], s.g.txns, payer)
         == CapturedOrder(s.g.events[..k], s.g.txns, payer) + AnnouncedAt(cfg, s, k, payer)
  {
    hide CapturedOrder, TxnId;
    assert EventAt(cfg, s, k);
    var i := s.h.logged[k].call;
    assert Holds(s.g, TxnId(s.calls[i].num), TxnOf(cfg.calls[i], s.calls[i]));
    assert s.g.events[..k + 1] == s.g.events[..k] + [s.g.events[k]];
    CapturedOrderAppend(s.g.events[..k], s.g.events[k], s.g.txns, payer);
  }

  lemma LoggedIdsGrow(cfg: Config, s: State, k: nat, payer: string)
    requires Sized(cfg, s) && k < |s.h.logged| && s.h.logged[k].call < |s.calls|
    ensures IdsOf(s.calls, CapturedBy(cfg, s.h.logged[..k + 1], payer))
         == IdsOf(s.calls, CapturedBy(cfg, s.h.logged[..k], payer)) + AnnouncedAt(cfg, s, k, payer)
  {
    hide CapturedBy, IdsOf;
    var l := s.h.logged[k];
    assert IdsOf(s.calls, [l.call]) == [TxnId(s.calls[l.call].num)] by {
      OneId(s.calls, l.call);
    }
    assert s.h.logged[..k + 1] == s.h.logged[..k] + [l];
    CapturedByAppend(cfg, s.h.logged[..k], l, payer);
    var before := CapturedBy(cfg, s.h.logged[..k], payer);
    if l.paid && cfg.calls[l.call].payer == payer {
      IdsOfAppend(s.calls, before, [l.call]);
    } else {
      assert before + [] == before;
    }
  }

  lemma {:induction false} CapturedOrderIsLogged(cfg: Config, s: State, k: nat, payer: string)
    requires Sized(cfg, s) && LogFits(cfg, s) && SavedAreStored(cfg, s) && k <= |s.h.logged|
    ensures CapturedOrder(s.g.events[..k], s.g.txns, payer) == IdsOf(s.calls, CapturedBy(cfg, s.h.logged[..k], payer))
  {
    hide LogFits, SavedAreStored, CapturedOrder, CapturedBy, IdsOf, AnnouncedAt;
    NothingYet(cfg, s, payer);
    if 0 < k {
      CapturedOrderIsLogged(cfg, s, k - 1, payer);
      CapturedOrderGrows(cfg, s, k - 1, payer);
      LoggedIdsGrow(cfg, s, k - 1, payer);
    }
  }

  /** The transactions announced as captured are, in the same order, those that debited the payer in the journal,
      except for at most one that is posted and not yet announced; with every call finished the two are equal. */
  ghost predicate OrdersAgree(s: State, payer: string) {
    var announced := CapturedOrder(s.g.events, s.g.txns, payer);
    var debited := DebitOrder(s.g.journal, payer);
    && announced <= debited && |debited| <= |announced| + 1
    && (AllDone(s) ==> announced == debited)
  }

  lemma WholeOrders(cfg: Config, s: State, payer: string)
    requires Sized(cfg, s) && JournalFits(cfg, s) && LogFits(cfg, s) && SavedAreStored(cfg, s)
    ensures DebitOrder(s.g.journal, payer) == IdsOf(s.calls, PostedBy(cfg, s.h.posted, payer))
    ensures CapturedOrder(s.g.events, s.g.txns, payer) == IdsOf(s.calls, CapturedBy(cfg, s.h.logged, payer))
  {
    DebitOrderIsPosted(cfg, s, |s.h.posted|, payer);
    CapturedOrderIsLogged(cfg, s, |s.h.logged|, payer);
    assert s.g.journal[..2 * |s.h.posted|] == s.g.journal && s.h.posted[..|s.h.posted|] == s.h.posted;
    assert s.g.events[..|s.h.logged|] == s.g.events && s.h.logged[..|s.h.logged|] == s.h.logged;
  }

  lemma NothingUnpublished(cfg: Config, s: State, payer: string)
    requires Sized(cfg, s) && Locks(cfg, s) && AllDone(s)
    ensures Unpublished(s, payer) == []
  {
  }

  lemma OrdersAgreeFrom(cfg: Config, s: State, payer: string)
    requires Chronicle(cfg, s)
    ensures OrdersAgree(s, payer)
  {
    WholeOrders(cfg, s, payer);
    assert PayerOrder(cfg, s, payer);
    IdsOfAppend(s.calls, CapturedBy(cfg, s.h.logged, payer), Unpublished(s, payer));
    if AllDone(s) {
      NothingUnpublished(cfg, s, payer);
    }
  }

  lemma OrderAgreement(cfg: Config, s: State, payer: string)
    requires Reachable(cfg, s)
    ensures OrdersAgree(s, payer)
  {
    var sched :| s == Exec(cfg, sched);
    AlwaysChronicle(cfg, sched);
    OrdersAgreeFrom(cfg, s, payer);
  }

  /** The DEBIT lines of any one payer carry strictly increasing sequence numbers in journal order, although the
      journal as a whole need not be sorted. */
  ghost predicate SeqIncreasesPerPayer(journal: seq<LedgerEntry>) {
    forall m, n :: (0 <= m < n < |journal| && journal[m].direction == Debit && journal[n].direction == Debit
                    && journal[m].account == journal[n].account) ==> journal[m].seqNo < journal[n].seqNo
  }

  lemma SeqIncreasesFrom(cfg: Config, s: State)
    requires Sized(cfg, s) && JournalFits(cfg, s) && SeqOrder(cfg, s)
    ensures SeqIncreasesPerPayer(s.g.journal)
  {
    forall m, n | 0 <= m < n < |s.g.journal| && s.g.journal[m].direction == Debit && s.g.journal[n].direction == Debit
      && s.g.journal[m].account == s.g.journal[n].account
      ensures s.g.journal[m].seqNo < s.g.journal[n].seqNo
    {
      var k, l := m / 2, n / 2;
      assert PairAt(cfg, s, k) && PairAt(cfg, s, l);
      assert m == 2 * k && n == 2 * l;
      assert InOrder(cfg, s, k, l);
    }
  }

  lemma PayerSequenceIncreases(cfg: Config, s: State)
    requires Reachable(cfg, s)
    ensures SeqIncreasesPerPayer(s.g.journal)
  {
    var sched :| s == Exec(cfg, sched);
    AlwaysChronicle(cfg, sched);
    SeqIncreasesFrom(cfg, s);
  }

  // ----- Fresh identifiers -----

  /** Entry ids and sequence numbers never repeat in the journal, and no two calls share a transaction id. */
  ghost predicate IdentifiersFresh(s: State) {
    && (forall m, n :: 0 <= m < n < |s.g.journal| ==>
          s.g.journal[m].entryId != s.g.journal[n].entryId && s.g.journal[m].seqNo != s.g.journal[n].seqNo)
    && (forall i, j :: 0 <= i < j < |s.calls| && s.calls[i].num > 0 && s.calls[j].num > 0 ==>
          TxnId(s.calls[i].num) != TxnId(s.calls[j].num))
  }

  lemma IdentifiersFreshFrom(cfg: Config, s: State)
    requires Sized(cfg, s) && Ids(cfg, s) && JournalFits(cfg, s) && NumbersFresh(s)
    ensures IdentifiersFresh(s)
  {
    forall m, n | 0 <= m < n < |s.g.journal|
      ensures s.g.journal[m].entryId != s.g.journal[n].entryId && s.g.journal[m].seqNo != s.g.journal[n].seqNo
    {
      LinesDiffer(cfg, s, m, n);
    }
    forall i, j | 0 <= i < j < |s.calls| && s.calls[i].num > 0 && s.calls[j].num > 0
      ensures TxnId(s.calls[i].num) != TxnId(s.calls[j].num)
    {
      assert MintedBy(s, TxnId(s.calls[i].num), i) && MintedBy(s, TxnId(s.calls[j].num), j);
    }
  }

  /** Where a journal line comes from. */
  lemma LineNumbers(cfg: Config, s: State, m: nat)
    requires Sized(cfg, s) && JournalFits(cfg, s) && m < |s.g.journal|
    ensures s.h.posted[m / 2] < |s.calls|
    ensures EntryNum(s.calls[s.h.posted[m / 2]], m % 2).Some? && SeqNum(s.calls[s.h.posted[m / 2]], m % 2).Some?
    ensures s.g.journal[m].entryId == EntryId(EntryNum(s.calls[s.h.posted[m / 2]], m % 2).value)
    ensures s.g.journal[m].seqNo == SeqNum(s.calls[s.h.posted[m / 2]], m % 2).value
  {
    assert PairAt(cfg, s, m / 2);
    assert m == 2 * (m / 2) + m % 2;
  }

  lemma LinesDiffer(cfg: Config, s: State, m: nat, n: nat)
    requires Sized(cfg, s) && JournalFits(cfg, s) && NumbersFresh(s)
    requires m < n < |s.g.journal|
    ensures s.g.journal[m].entryId != s.g.journal[n].entryId && s.g.journal[m].seqNo != s.g.journal[n].seqNo
  {
    var i, j := s.h.posted[m / 2], s.h.posted[n / 2];
    LineNumbers(cfg, s, m);
    LineNumbers(cfg, s, n);
    var a, b := EntryNum(s.calls[i], m % 2), EntryNum(s.calls[j], n % 2);
    assert i != j || m % 2 != n % 2;
    assert a != b && SeqNum(s.calls[i], m % 2) != SeqNum(s.calls[j], n % 2);
    if EntryId(a.value) == EntryId(b.value) {
      Stores.IdTextInjective("le", a.value, b.value);
    }
  }

  lemma FreshIdentifiers(cfg: Config, s: State)
    requires Reachable(cfg, s)
    ensures IdentifiersFresh(s)
  {
    var sched :| s == Exec(cfg, sched);
    AlwaysChronicle(cfg, sched);
    IdentifiersFreshFrom(cfg, s);
  }

  // ----- Cross-store consistency -----

  predicate LineOf(e: LedgerEntry, id: string, direction: Direction) {
    e.txnId == id && e.direction == direction
  }

  ghost predicate OneLine(journal: seq<LedgerEntry>, id: string, direction: Direction) {
    exists k :: 0 <= k < |journal| && LineOf(journal[k], id, direction)
      && forall l :: 0 <= l < |journal| && LineOf(journal[l], id, direction) ==> l == k
  }

  ghost predicate NoLine(journal: seq<LedgerEntry>, id: string) {
    forall k :: 0 <= k < |journal| ==> journal[k].txnId != id
  }

  ghost predicate OneEvent(events: seq<DomainEvent>, id: string, kind: EventKind) {
    exists k :: 0 <= k < |events| && events[k].aggregateId == id && events[k].kind == kind
      && forall l :: 0 <= l < |events| && events[l].aggregateId == id ==> l == k
  }

  ghost predicate NoEvent(events: seq<DomainEvent>, id: string) {
    forall k :: 0 <= k < |events| ==> events[k].aggregateId != id
  }

  /** What the stores say about a finished winner: a captured payment has its transaction, one DEBIT and one
      CREDIT line and one PaymentCaptured event; a refused one its FAILED transaction, no line and one
      PaymentFailed event; one that threw left its key claimed and nothing else. */
  ghost predicate StoresAgree(cfg: Config, s: State, i: nat)
    requires Sized(cfg, s) && i < |s.calls|
  {
    var id := TxnId(s.calls[i].num);
    s.calls[i].pc.Done? && Winner(s.calls[i].pc) ==>
      && cfg.calls[i].key in s.g.keys && s.g.keys[cfg.calls[i].key] == id
      && (match s.calls[i].pc.out
          case Paid =>
            && id in s.g.txns && s.g.txns[id].status == Captured
            && OneLine(s.g.journal, id, Debit) && OneLine(s.g.journal, id, Credit)
            && OneEvent(s.g.events, id, PaymentCaptured)
          case Refused(_) =>
            && id in s.g.txns && s.g.txns[id].status == Failed
            && NoLine(s.g.journal, id)
            && OneEvent(s.g.events, id, PaymentFailed)
          case _ =>
            id !in s.g.txns && NoLine(s.g.journal, id) && NoEvent(s.g.events, id))
  }

  /** Lines and events name the call they come from. */
  lemma LineIsOf(cfg: Config, s: State, k: nat, i: nat)
    requires Sized(cfg, s) && Ids(cfg, s) && Numbered(s) && JournalFits(cfg, s)
    requires k < |s.g.journal| && i < |s.calls| && s.calls[i].num > 0
    ensures s.g.journal[k].txnId == TxnId(s.calls[i].num) <==> s.h.posted[k / 2] == i
    ensures s.g.journal[k].direction == Debit <==> k % 2 == 0
  {
    assert PairAt(cfg, s, k / 2);
    assert k == 2 * (k / 2) + k % 2;
    var j := s.h.posted[k / 2];
    assert MintedBy(s, TxnId(s.calls[j].num), j) && MintedBy(s, TxnId(s.calls[i].num), i);
  }

  lemma EventIsOf(cfg: Config, s: State, k: nat, i: nat)
    requires Sized(cfg, s) && Ids(cfg, s) && Numbered(s) && LogFits(cfg, s)
    requires k < |s.g.events| && i < |s.calls| && s.calls[i].num > 0
    ensures s.g.events[k].aggregateId == TxnId(s.calls[i].num) <==> s.h.logged[k].call == i
  {
    assert EventAt(cfg, s, k);
    var j := s.h.logged[k].call;
    assert MintedBy(s, TxnId(s.calls[j].num), j) && MintedBy(s, TxnId(s.calls[i].num), i);
  }

  lemma LinesOfCall(cfg: Config, s: State, i: nat)
    requires Sized(cfg, s) && Ids(cfg, s) && Numbered(s) && JournalFits(cfg, s)
    requires i < |s.calls| && s.calls[i].num > 0
    ensures var id := TxnId(s.calls[i].num);
            if PostedPc(s.calls[i].pc) then OneLine(s.g.journal, id, Debit) && OneLine(s.g.journal, id, Credit)
            else NoLine(s.g.journal, id)
  {
    var id := TxnId(s.calls[i].num);
    if PostedPc(s.calls[i].pc) {
      var p :| 0 <= p < |s.h.posted| && s.h.posted[p] == i;
      LinesAt(cfg, s, i, p);
    } else {
      forall k | 0 <= k < |s.g.journal|
        ensures s.g.journal[k].txnId != id
      {
        LineIsOf(cfg, s, k, i);
        assert PairAt(cfg, s, k / 2);
      }
    }
  }

  lemma LinesAt(cfg: Config, s: State, i: nat, p: nat)
    requires Sized(cfg, s) && Ids(cfg, s) && Numbered(s) && JournalFits(cfg, s)
    requires i < |s.calls| && s.calls[i].num > 0
    requires p < |s.h.posted| && s.h.posted[p] == i
    ensures OneLine(s.g.journal, TxnId(s.calls[i].num), Debit)
    ensures OneLine(s.g.journal, TxnId(s.calls[i].num), Credit)
  {
    var id := TxnId(s.calls[i].num);
    forall k | 0 <= k < |s.g.journal|
      ensures LineOf(s.g.journal[k], id, Debit) <==> k == 2 * p
      ensures LineOf(s.g.journal[k], id, Credit) <==> k == 2 * p + 1
    {
      LineIsOf(cfg, s, k, i);
    }
    assert LineOf(s.g.journal[2 * p], id, Debit);
    assert LineOf(s.g.journal[2 * p + 1], id, Credit);
  }

  lemma EventsOfCall(cfg: Config, s: State, i: nat)
    requires Sized(cfg, s) && Ids(cfg, s) && Numbered(s) && LogFits(cfg, s)
    requires i < |s.calls| && s.calls[i].num > 0
    ensures var id := TxnId(s.calls[i].num);
            if PublishedPc(s.calls[i].pc)
            then OneEvent(s.g.events, id, if s.calls[i].pc.out.Paid? then PaymentCaptured else PaymentFailed)
            else NoEvent(s.g.events, id)
  {
    var id := TxnId(s.calls[i].num);
    forall k | 0 <= k < |s.g.events|
      ensures s.g.events[k].aggregateId == id <==> s.h.logged[k].call == i
      ensures s.g.events[k].aggregateId == id ==> PublishedPc(s.calls[i].pc)
    {
      EventIsOf(cfg, s, k, i);
      assert EventAt(cfg, s, k);
    }
    if PublishedPc(s.calls[i].pc) {
      var p :| 0 <= p < |s.h.logged| && s.h.logged[p] == Logged(i, s.calls[i].pc.out.Paid?);
      assert EventAt(cfg, s, p);
      assert s.g.events[p].aggregateId == id;
    }
  }

  lemma StoresAgreeFrom(cfg: Config, s: State, i: nat)
    requires Chronicle(cfg, s) && i < |s.calls|
    ensures StoresAgree(cfg, s, i)
  {
    if s.calls[i].pc.Done? && Winner(s.calls[i].pc) {
      NumberedFrom(cfg, s);
      assert OwnedBy(s, cfg.calls[i].key, i);
      assert CallShape(cfg.env, cfg.calls[i], s.calls[i]);
      LegalLifecycleFrom(cfg.env, cfg.calls[i], s.calls[i]);
      LinesOfCall(cfg, s, i);
      EventsOfCall(cfg, s, i);
      RecordOfCall(cfg, s, i);
    }
  }

  lemma RecordOfCall(cfg: Config, s: State, i: nat)
    requires Sized(cfg, s) && Ids(cfg, s) && Repository(cfg, s)
    requires i < |s.calls| && s.calls[i].num > 0
    ensures var id := TxnId(s.calls[i].num);
            if Stored(s.calls[i].pc) then Holds(s.g, id, TxnOf(cfg.calls[i], s.calls[i])) else id !in s.g.txns
  {
    assert MintedBy(s, TxnId(s.calls[i].num), i);
  }

  lemma NumberedFrom(cfg: Config, s: State)
    requires Sized(cfg, s) && Shapes(cfg, s)
    ensures Numbered(s)
  {
    forall j | 0 <= j < |s.calls| && !s.calls[j].pc.Start?
      ensures s.calls[j].num > 0
    {
      assert CallShape(cfg.env, cfg.calls[j], s.calls[j]);
    }
  }

  lemma CrossStoreConsistency(cfg: Config, s: State, i: nat)
    requires Reachable(cfg, s) && i < |cfg.calls|
    ensures StoresAgree(cfg, s, i)
  {
    var sched :| s == Exec(cfg, sched);
    AlwaysChronicle(cfg, sched);
    StoresAgreeFrom(cfg, s, i);
  }

  // ----- Balances and the lines of an account -----

  /** The line is an account's, is in a currency the account is not kept in, and is worth something. */
  ghost predicate ForeignLine(env: Env, e: LedgerEntry, account: string)
    requires account in env.opening
  {
    e.account == account && e.amount.ccy != env.opening[account].ccy && e.amount.minor != 0
  }

  ghost predicate CreditedOnly(env: Env, journal: seq<LedgerEntry>, account: string)
    requires account in env.opening
  {
    forall k :: 0 <= k < |journal| && ForeignLine(env, journal[k], account) ==>
      journal[k].direction == Credit && 0 < journal[k].amount.minor
  }

  lemma {:induction false} ForeignLinesAdd(env: Env, journal: seq<LedgerEntry>, account: string)
    requires account in env.opening && CreditedOnly(env, journal, account)
    ensures var net := Ledger.Net(Ledger.EntriesFor(journal, account));
            && Booked(env, journal, account) <= net
            && (net == Booked(env, journal, account)
                <==> forall k :: 0 <= k < |journal| ==> !ForeignLine(env, journal[k], account))
  {
    if journal != [] {
      var n := |journal| - 1;
      var rest, e := journal[..n], journal[n];
      assert journal == rest + [e];
      assert forall k :: 0 <= k < n ==> rest[k] == journal[k];
      ForeignLinesAdd(env, rest, account);
      BookedAppend(env, rest, e, account);
      var lines := Ledger.EntriesFor(rest, account);
      assert (lines + [e])[..|lines|] == lines;
    }
  }

  /** The only lines in a foreign currency are credits the payee's account refused. */
  lemma ForeignLinesAreRefusedCredits(cfg: Config, s: State, account: string)
    requires Sized(cfg, s) && Shapes(cfg, s) && JournalFits(cfg, s) && account in cfg.env.opening
    ensures CreditedOnly(cfg.env, s.g.journal, account)
  {
    forall m | 0 <= m < |s.g.journal| && ForeignLine(cfg.env, s.g.journal[m], account)
      ensures s.g.journal[m].direction == Credit && 0 < s.g.journal[m].amount.minor
    {
      var k := m / 2;
      assert PairAt(cfg, s, k);
      assert m == 2 * k || m == 2 * k + 1;
      var i := s.h.posted[k];
      assert CallShape(cfg.env, cfg.calls[i], s.calls[i]);
    }
  }

  /** Summed over everything `entriesFor` returns, currencies mixed, the journal never falls short of the balance;
      it agrees with it, but for calls between debit and posting, if and only if the account has no line in a
      foreign currency. */
  lemma BalancesAgreeWithEntries(cfg: Config, s: State, account: string)
    requires Reachable(cfg, s) && account in cfg.env.opening
    ensures account in s.g.balances
    ensures var derived := cfg.env.opening[account].minor + Ledger.Net(Ledger.EntriesFor(s.g.journal, account));
            var gap := SumOver(cfg, s.calls, Gap(account));
            && s.g.balances[account] <= derived + gap
            && (s.g.balances[account] == derived + gap
                <==> forall k :: 0 <= k < |s.g.journal| ==> !ForeignLine(cfg.env, s.g.journal[k], account))
            && (Books.Settled(s) ==> gap == 0)
  {
    hide Exec, Booked;
    var sched :| s == Exec(cfg, sched);
    AlwaysChronicle(cfg, sched);
    BalancesAgreeWithJournal(cfg, s, account);
    ForeignLinesAreRefusedCredits(cfg, s, account);
    ForeignLinesAdd(cfg.env, s.g.journal, account);
  }

  // ----- Trial balance of the live journal -----

  /** The journal up to its k-th posting nets to zero in every currency. */
  lemma {:induction false} PostingsBalance(cfg: Config, s: State, k: nat, ccy: Currency)
    requires Sized(cfg, s) && JournalFits(cfg, s) && k <= |s.h.posted|
    ensures Ledger.NetIn(s.g.journal[..2 * k], ccy) == 0
  {
    hide JournalFits, Ledger.NetIn;
    if k == 0 {
      assert s.g.journal[..0] == [];
      assert Ledger.NetIn([], ccy) == 0 by {
        NothingNets(ccy);
      }
    } else {
      PostingsBalance(cfg, s, k - 1, ccy);
      PostingBalances(cfg, s, k - 1, ccy);
    }
  }

  lemma NothingNets(ccy: Currency)
    ensures Ledger.NetIn([], ccy) == 0
  {
  }

  lemma PostingBalances(cfg: Config, s: State, k: nat, ccy: Currency)
    requires Sized(cfg, s) && JournalFits(cfg, s) && k < |s.h.posted|
    ensures |s.g.journal| == 2 * |s.h.posted|
    ensures Ledger.NetIn(s.g.journal[..2 * (k + 1)], ccy) == Ledger.NetIn(s.g.journal[..2 * k], ccy)
  {
    hide Ledger.NetIn, Ledger.PostStatus;
    assert PairAt(cfg, s, k);
    var i := s.h.posted[k];
    var batch := [DebitEntry(cfg.calls[i], s.calls[i]), CreditEntry(cfg.calls[i], s.calls[i])];
    assert s.g.journal[..2 * (k + 1)] == s.g.journal[..2 * k] + batch;
    Ledger.NetInAppend(s.g.journal[..2 * k], batch, ccy);
    PostingAccepted(cfg.calls[i], s.calls[i]);
    Ledger.AcceptedBatchBalances(batch, ccy);
  }

  /** Every journal line belongs to an account. */
  lemma LinesHaveAccounts(cfg: Config, s: State, m: nat)
    requires Sized(cfg, s) && Shapes(cfg, s) && JournalFits(cfg, s) && m < |s.g.journal|
    ensures s.g.journal[m].account in cfg.env.opening
  {
    var k := m / 2;
    assert PairAt(cfg, s, k);
    assert m == 2 * k || m == 2 * k + 1;
    assert CallShape(cfg.env, cfg.calls[s.h.posted[k]], s.calls[s.h.posted[k]]);
  }

  /** Trial balance under every interleaving: the live journal nets to zero in each currency at every posting, and
      the books of all accounts together total zero. */
  lemma JournalBalances(cfg: Config, s: State, k: nat, names: seq<string>, ccy: Currency)
    requires Reachable(cfg, s) && Distinct(names) && forall a :: a in cfg.env.opening ==> a in names
    ensures |s.g.journal| % 2 == 0
    ensures 2 * k <= |s.g.journal| ==> Ledger.NetIn(s.g.journal[..2 * k], ccy) == 0
    ensures Ledger.BooksTotal(s.g.journal, names, ccy) == 0
  {
    hide Exec, Ledger.NetIn, Ledger.BooksTotal;
    var sched :| s == Exec(cfg, sched);
    AlwaysChronicle(cfg, sched);
    if 2 * k <= |s.g.journal| {
      PostingsBalance(cfg, s, k, ccy);
    }
    PostingsBalance(cfg, s, |s.h.posted|, ccy);
    assert s.g.journal[..2 * |s.h.posted|] == s.g.journal;
    forall m | 0 <= m < |s.g.journal|
      ensures s.g.journal[m].account in names
    {
      LinesHaveAccounts(cfg, s, m);
    }
    Ledger.BooksAddUp(s.g.journal, names, ccy);
  }
}
