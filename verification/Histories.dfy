/** The journal and the event log as histories of calls: who wrote which lines, in which order. */
module Histories {
  import opened Common
  import opened Protocol
  import opened ProtocolInvariant

  /** The call's two journal lines are written. */
  predicate PostedPc(pc: Pc) {
    Succeeded(pc) && !pc.Credited?
  }

  /** The call's event is in the log. */
  predicate PublishedPc(pc: Pc) {
    pc.Published? || (pc.Done? && (pc.out.Paid? || pc.out.Refused?))
  }

  /** The journal is the two lines of each call that posted, in posting order. */
  ghost predicate JournalFits(cfg: Config, s: State)
    requires Sized(cfg, s)
  {
    && |s.g.journal| == 2 * |s.h.posted|
    && Distinct(s.h.posted)
    && (forall k :: 0 <= k < |s.h.posted| ==> PairAt(cfg, s, k))
    && (forall i :: 0 <= i < |s.calls| && PostedPc(s.calls[i].pc) ==> i in s.h.posted)
  }

  ghost predicate PairAt(cfg: Config, s: State, k: int)
    requires Sized(cfg, s) && 0 <= k < |s.h.posted| && |s.g.journal| == 2 * |s.h.posted|
  {
    var i := s.h.posted[k];
    && i < |s.calls|
    && PostedPc(s.calls[i].pc)
    && AllMinted(s.calls[i])
    && s.g.journal[2 * k] == DebitEntry(cfg.calls[i], s.calls[i])
    && s.g.journal[2 * k + 1] == CreditEntry(cfg.calls[i], s.calls[i])
  }

  ghost predicate PostMove(cfg: Config, s: State, s': State, i: nat)
    requires i < |s.calls| && i < |s'.calls| && i < |cfg.calls|
  {
    var c, c' := s.calls[i], s'.calls[i];
    && (PostedPc(c.pc) ==> c'.num == c.num && c'.debitId == c.debitId && c'.debitSeq == c.debitSeq
                           && c'.creditId == c.creditId && c'.creditSeq == c.creditSeq)
    && (if c.pc.Credited? && AllMinted(c) then
          && c' == c.(pc := Posted)
          && s'.g.journal == s.g.journal + [DebitEntry(cfg.calls[i], c), CreditEntry(cfg.calls[i], c)]
          && s'.h.posted == s.h.posted + [i]
        else
          && s'.g.journal == s.g.journal
          && s'.h.posted == s.h.posted
          && (PostedPc(c'.pc) <==> PostedPc(c.pc)))
  }

  lemma StepPosts(cfg: Config, s: State, i: nat, b: bool)
    requires Sized(cfg, s) && Enabled(cfg, s, i)
    requires PathShape(cfg.env, cfg.calls[i], s.calls[i])
    ensures PostMove(cfg, s, Next(cfg, s, i, b), i)
  {
    if s.calls[i].pc.Credited? {
      CreditedStep(cfg.env, cfg.calls[i], i, s.g, s.calls[i], b);
    } else {
      StepPostsElsewhere(cfg, s, i, b);
    }
  }

  lemma StepPostsElsewhere(cfg: Config, s: State, i: nat, b: bool)
    requires Sized(cfg, s) && Enabled(cfg, s, i) && !s.calls[i].pc.Credited?
    requires PathShape(cfg.env, cfg.calls[i], s.calls[i])
    ensures PostMove(cfg, s, Next(cfg, s, i, b), i)
  {
    hide Gate, AfterDebit, AfterCredit, TxnOf, EventOf, MintStep;
  }

  lemma JournalKept(cfg: Config, s: State, s': State, i: nat)
    requires OnlyMoved(cfg, s, s', i) && PostMove(cfg, s, s', i)
    requires JournalFits(cfg, s)
    ensures JournalFits(cfg, s')
  {
    forall k | 0 <= k < |s'.h.posted|
      ensures PairAt(cfg, s', k)
    {
      assert k < |s.h.posted| ==> PairAt(cfg, s, k);
    }
    forall j | 0 <= j < |s'.calls| && PostedPc(s'.calls[j].pc)
      ensures j in s'.h.posted
    {
      assert PostedPc(s.calls[j].pc) ==> j in s.h.posted;
      assert s'.h.posted != s.h.posted ==> s'.h.posted[|s.h.posted|] == i;
    }
    if s'.h.posted != s.h.posted {
      assert i !in s.h.posted by {
        forall k | 0 <= k < |s.h.posted|
          ensures s.h.posted[k] != i
        {
          assert PairAt(cfg, s, k);
        }
      }
    }
  }

  /** The log is the event of each call that published, in publishing order. */
  ghost predicate LogFits(cfg: Config, s: State)
    requires Sized(cfg, s)
  {
    && |s.g.events| == |s.h.logged|
    && (forall k, l :: 0 <= k < l < |s.h.logged| ==> s.h.logged[k].call != s.h.logged[l].call)
    && (forall k :: 0 <= k < |s.h.logged| ==> EventAt(cfg, s, k))
    && (forall i :: 0 <= i < |s.calls| && PublishedPc(s.calls[i].pc) ==>
          Logged(i, s.calls[i].pc.out.Paid?) in s.h.logged)
  }

  ghost predicate EventAt(cfg: Config, s: State, k: int)
    requires Sized(cfg, s) && 0 <= k < |s.h.logged| && |s.g.events| == |s.h.logged|
  {
    var l := s.h.logged[k];
    && l.call < |s.calls|
    && PublishedPc(s.calls[l.call].pc)
    && (l.paid <==> s.calls[l.call].pc.out.Paid?)
    && s.g.events[k] == EventOf(cfg.calls[l.call], s.calls[l.call].num, l.paid)
  }

  ghost predicate LogMove(cfg: Config, s: State, s': State, i: nat)
    requires i < |s.calls| && i < |s'.calls| && i < |cfg.calls|
  {
    var c, c' := s.calls[i], s'.calls[i];
    if c.pc.Saved? then
      && s'.g.events == s.g.events + [EventOf(cfg.calls[i], c.num, c.pc.out.Paid?)]
      && s'.h.logged == s.h.logged + [Logged(i, c.pc.out.Paid?)]
      && PublishedPc(c'.pc) && (c'.pc.out.Paid? <==> c.pc.out.Paid?)
      && c'.num == c.num
    else
      && s'.g.events == s.g.events
      && s'.h.logged == s.h.logged
      && (PublishedPc(c'.pc) <==> PublishedPc(c.pc))
      && (PublishedPc(c.pc) ==> c'.num == c.num && (c'.pc.out.Paid? <==> c.pc.out.Paid?))
  }

  lemma StepLogs(cfg: Config, s: State, i: nat, b: bool)
    requires Sized(cfg, s) && Enabled(cfg, s, i)
    requires PathShape(cfg.env, cfg.calls[i], s.calls[i])
    ensures LogMove(cfg, s, Next(cfg, s, i, b), i)
  {
    hide StepOf, LogMove;
    if s.calls[i].pc.Credited? {
      StepLogsNothing(cfg, s, i, b);
    } else {
      StepLogsElsewhere(cfg, s, i, b);
    }
  }

  lemma StepLogsNothing(cfg: Config, s: State, i: nat, b: bool)
    requires Sized(cfg, s) && Enabled(cfg, s, i) && s.calls[i].pc.Credited?
    ensures LogMove(cfg, s, Next(cfg, s, i, b), i)
  {
    hide StepOf, TxnOf, DebitEntry, CreditEntry, TxnId;
    CreditedStep(cfg.env, cfg.calls[i], i, s.g, s.calls[i], b);
  }

  lemma StepLogsElsewhere(cfg: Config, s: State, i: nat, b: bool)
    requires Sized(cfg, s) && Enabled(cfg, s, i) && !s.calls[i].pc.Credited?
    requires PathShape(cfg.env, cfg.calls[i], s.calls[i])
    ensures LogMove(cfg, s, Next(cfg, s, i, b), i)
  {
    hide Gate, AfterDebit, AfterCredit, TxnOf, MintStep, DebitEntry, CreditEntry, TxnId;
  }

  lemma LogKept(cfg: Config, s: State, s': State, i: nat)
    requires OnlyMoved(cfg, s, s', i) && LogMove(cfg, s, s', i)
    requires LogFits(cfg, s)
    ensures LogFits(cfg, s')
  {
    forall k | 0 <= k < |s'.h.logged|
      ensures EventAt(cfg, s', k)
    {
      assert k < |s.h.logged| ==> EventAt(cfg, s, k);
    }
    forall j | 0 <= j < |s'.calls| && PublishedPc(s'.calls[j].pc)
      ensures Logged(j, s'.calls[j].pc.out.Paid?) in s'.h.logged
    {
      assert PublishedPc(s.calls[j].pc) ==> Logged(j, s.calls[j].pc.out.Paid?) in s.h.logged;
      assert s.calls[i].pc.Saved? ==> s'.h.logged[|s.h.logged|] == Logged(i, s.calls[i].pc.out.Paid?);
    }
    forall k | 0 <= k < |s.h.logged|
      ensures s.calls[i].pc.Saved? ==> s.h.logged[k].call != i
    {
      assert EventAt(cfg, s, k);
    }
  }

  // ----- Entry numbers and sequence numbers -----

  /** The n-th entry number (0 for the debit line, 1 for the credit line) a call has taken. */
  function EntryNum(c: Call, n: int): Option<nat> {
    if n == 0 then c.debitId else c.creditId
  }

  function SeqNum(c: Call, n: int): Option<nat> {
    if n == 0 then c.debitSeq else c.creditSeq
  }

  /** Every number taken so far is below the counter, and no two lines share one. */
  ghost predicate NumbersFresh(s: State) {
    && (forall i, n :: 0 <= i < |s.calls| && 0 <= n < 2 ==>
          && (EntryNum(s.calls[i], n).Some? ==> EntryNum(s.calls[i], n).value < s.g.nextEntry)
          && (SeqNum(s.calls[i], n).Some? ==> SeqNum(s.calls[i], n).value < s.g.nextSeq))
    && (forall i, n, j, m :: (0 <= i < |s.calls| && 0 <= n < 2 && 0 <= j < |s.calls| && 0 <= m < 2
                              && (i != j || n != m)) ==>
          && (EntryNum(s.calls[i], n).Some? ==> EntryNum(s.calls[i], n) != EntryNum(s.calls[j], m))
          && (SeqNum(s.calls[i], n).Some? ==> SeqNum(s.calls[i], n) != SeqNum(s.calls[j], m)))
  }

  /** At most one number is taken by a step, and it is the counter's. */
  ghost predicate MintMove(s: State, s': State, i: nat)
    requires i < |s.calls| && i < |s'.calls|
  {
    && s.g.nextEntry <= s'.g.nextEntry && s.g.nextSeq <= s'.g.nextSeq
    && (forall n :: 0 <= n < 2 ==>
          EntryNum(s'.calls[i], n) == EntryNum(s.calls[i], n)
          || (EntryNum(s'.calls[i], n) == Some(s.g.nextEntry) && s'.g.nextEntry == s.g.nextEntry + 1))
    && (forall n :: 0 <= n < 2 ==>
          SeqNum(s'.calls[i], n) == SeqNum(s.calls[i], n)
          || (SeqNum(s'.calls[i], n) == Some(s.g.nextSeq) && s'.g.nextSeq == s.g.nextSeq + 1))
    && (EntryNum(s'.calls[i], 0) == EntryNum(s.calls[i], 0) || EntryNum(s'.calls[i], 1) == EntryNum(s.calls[i], 1))
    && (SeqNum(s'.calls[i], 0) == SeqNum(s.calls[i], 0) || SeqNum(s'.calls[i], 1) == SeqNum(s.calls[i], 1))
  }

  lemma StepMints(cfg: Config, s: State, i: nat, b: bool)
    requires Sized(cfg, s) && Enabled(cfg, s, i)
    requires PathShape(cfg.env, cfg.calls[i], s.calls[i])
    ensures MintMove(s, Next(cfg, s, i, b), i)
  {
    if s.calls[i].pc.Credited? {
      CreditedStep(cfg.env, cfg.calls[i], i, s.g, s.calls[i], b);
    } else {
      StepMintsNothing(cfg, s, i, b);
    }
  }

  lemma StepMintsNothing(cfg: Config, s: State, i: nat, b: bool)
    requires Sized(cfg, s) && Enabled(cfg, s, i) && !s.calls[i].pc.Credited?
    ensures MintMove(s, Next(cfg, s, i, b), i)
  {
    hide StepOf;
    NumbersStay(cfg.env, cfg.calls[i], i, s.g, s.calls[i], b);
  }

  lemma NumbersKept(cfg: Config, s: State, s': State, i: nat)
    requires OnlyMoved(cfg, s, s', i) && MintMove(s, s', i)
    requires NumbersFresh(s)
    ensures NumbersFresh(s')
  {
  }

  // ----- Order under the payer's lock -----

  /** Sequence numbers follow posting order among the payments of one payer: the lock keeps a payer's next
      number from being taken before its previous posting is in the journal. */
  ghost predicate SeqOrder(cfg: Config, s: State)
    requires Sized(cfg, s) && JournalFits(cfg, s)
  {
    && (forall k, l :: 0 <= k < l < |s.h.posted| ==> InOrder(cfg, s, k, l))
    && (forall k, i :: 0 <= k < |s.h.posted| && 0 <= i < |s.calls| ==> AheadOf(cfg, s, k, i))
  }

  ghost predicate InOrder(cfg: Config, s: State, k: int, l: int)
    requires Sized(cfg, s) && JournalFits(cfg, s) && 0 <= k < l < |s.h.posted|
  {
    assert PairAt(cfg, s, k) && PairAt(cfg, s, l);
    var i, j := s.h.posted[k], s.h.posted[l];
    cfg.calls[i].payer == cfg.calls[j].payer ==> s.calls[i].debitSeq.value < s.calls[j].debitSeq.value
  }

  ghost predicate AheadOf(cfg: Config, s: State, k: int, i: int)
    requires Sized(cfg, s) && JournalFits(cfg, s) && 0 <= k < |s.h.posted| && 0 <= i < |s.calls|
  {
    assert PairAt(cfg, s, k);
    var j := s.h.posted[k];
    s.calls[i].pc.Credited? && s.calls[i].debitSeq.Some? && cfg.calls[i].payer == cfg.calls[j].payer ==>
      s.calls[j].debitSeq.value < s.calls[i].debitSeq.value
  }

  lemma InOrderKept(cfg: Config, s: State, s': State, i: nat, k: nat, l: nat)
    requires OnlyMoved(cfg, s, s', i) && PostMove(cfg, s, s', i)
    requires JournalFits(cfg, s) && JournalFits(cfg, s') && SeqOrder(cfg, s)
    requires k < l < |s'.h.posted|
    ensures InOrder(cfg, s', k, l)
  {
    assert PairAt(cfg, s', k) && PairAt(cfg, s', l);
    assert PairAt(cfg, s, k);
    if l < |s.h.posted| {
      assert PairAt(cfg, s, l);
      assert InOrder(cfg, s, k, l);
    } else {
      assert AheadOf(cfg, s, k, i);
    }
  }

  lemma AheadKept(cfg: Config, s: State, s': State, i: nat, k: nat, j: nat)
    requires OnlyMoved(cfg, s, s', i) && PostMove(cfg, s, s', i) && MintMove(s, s', i)
    requires Locks(cfg, s) && NumbersFresh(s)
    requires s'.calls[i].pc.Credited? && !s.calls[i].pc.Credited? ==> s'.calls[i].debitSeq.None?
    requires JournalFits(cfg, s) && JournalFits(cfg, s') && SeqOrder(cfg, s)
    requires k < |s'.h.posted| && j < |s'.calls|
    ensures AheadOf(cfg, s', k, j)
  {
    assert PairAt(cfg, s', k);
    if k < |s.h.posted| {
      assert PairAt(cfg, s, k);
      assert AheadOf(cfg, s, k, j);
      var m := s.h.posted[k];
      assert SeqNum(s.calls[m], 0).value < s.g.nextSeq;
      assert j == i ==> SeqNum(s'.calls[i], 0) == SeqNum(s.calls[i], 0) || SeqNum(s'.calls[i], 0) == Some(s.g.nextSeq);
    } else if s'.calls[j].pc.Credited? && cfg.calls[j].payer == cfg.calls[i].payer {
      OneCriticalPerPayer(cfg, s, i, j);
    }
  }

  /** The posted calls of one payer, in posting order. */
  function PostedBy(cfg: Config, posted: seq<nat>, payer: string): seq<nat> {
    if posted == [] then []
    else
      var i := posted[|posted| - 1];
      var rest := PostedBy(cfg, posted[..|posted| - 1], payer);
      if i < |cfg.calls| && cfg.calls[i].payer == payer then rest + [i] else rest
  }

  /** The calls of one payer with a PaymentCaptured event, in event order. */
  function CapturedBy(cfg: Config, logged: seq<Logged>, payer: string): seq<nat> {
    if logged == [] then []
    else
      var l := logged[|logged| - 1];
      var rest := CapturedBy(cfg, logged[..|logged| - 1], payer);
      if l.paid && l.call < |cfg.calls| && cfg.calls[l.call].payer == payer then rest + [l.call] else rest
  }

  /** The payer's call that has posted and not yet published: the holder of its lock, if that is so. */
  function Unpublished(s: State, payer: string): seq<nat> {
    if LockKey(payer) in s.g.locks && s.g.locks[LockKey(payer)].Some? then
      var i := s.g.locks[LockKey(payer)].value;
      if i < |s.calls| && PostedPc(s.calls[i].pc) && !PublishedPc(s.calls[i].pc) then [i] else []
    else []
  }

  ghost predicate PayerOrder(cfg: Config, s: State, payer: string)
    requires Sized(cfg, s)
  {
    PostedBy(cfg, s.h.posted, payer) == CapturedBy(cfg, s.h.logged, payer) + Unpublished(s, payer)
  }

  /** A call reaches its minting with nothing minted, and the lock outlives the event. */
  ghost predicate PathMove(s: State, s': State, i: nat)
    requires i < |s.calls| && i < |s'.calls|
  {
    && (s'.calls[i].pc.Credited? && !s.calls[i].pc.Credited? ==> s'.calls[i].debitSeq.None?)
    && (s'.calls[i].pc.Done? && PostedPc(s.calls[i].pc) ==> PublishedPc(s.calls[i].pc))
    && (s.calls[i].pc.Waiting? ==> !PostedPc(s'.calls[i].pc))
  }

  lemma StepFollowsPath(cfg: Config, s: State, i: nat, b: bool)
    requires Sized(cfg, s) && Enabled(cfg, s, i)
    requires CallShape(cfg.env, cfg.calls[i], s.calls[i])
    ensures PathMove(s, Next(cfg, s, i, b), i)
  {
  }

  /** Posting makes the lock's holder unpublished, publishing ends that, and nothing else matters. */
  lemma UnpublishedMoves(cfg: Config, s: State, s': State, i: nat, payer: string)
    requires OnlyMoved(cfg, s, s', i) && PathMove(s, s', i)
    requires PostMove(cfg, s, s', i) && LogMove(cfg, s, s', i) && LocksMove(cfg.calls[i], s, s', i)
    requires Locks(cfg, s) && PathShape(cfg.env, cfg.calls[i], s.calls[i])
    ensures var c := s.calls[i];
            var mine := cfg.calls[i].payer == payer;
            if mine && c.pc.Credited? && AllMinted(c) then
              Unpublished(s, payer) == [] && Unpublished(s', payer) == [i]
            else if mine && c.pc.Saved? && c.pc.out.Paid? then
              Unpublished(s, payer) == [i] && Unpublished(s', payer) == []
            else
              Unpublished(s', payer) == Unpublished(s, payer)
  {
    hide Gate, PostedBy, CapturedBy;
    assert Critical(s.calls[i].pc) ==> HeldBy(s.g, LockKey(cfg.calls[i].payer), i);
    if LockKey(payer) == LockKey(cfg.calls[i].payer) {
      LockKeyInjective(payer, cfg.calls[i].payer);
    }
  }

  lemma PostedByAppend(cfg: Config, posted: seq<nat>, i: nat, payer: string)
    requires i < |cfg.calls|
    ensures PostedBy(cfg, posted + [i], payer)
         == PostedBy(cfg, posted, payer) + (if cfg.calls[i].payer == payer then [i] else [])
  {
    assert (posted + [i])[..|posted|] == posted;
  }

  lemma CapturedByAppend(cfg: Config, logged: seq<Logged>, l: Logged, payer: string)
    requires l.call < |cfg.calls|
    ensures CapturedBy(cfg, logged + [l], payer)
         == CapturedBy(cfg, logged, payer) + (if l.paid && cfg.calls[l.call].payer == payer then [l.call] else [])
  {
    assert (logged + [l])[..|logged|] == logged;
  }

  lemma PayerOrderKept(cfg: Config, s: State, s': State, i: nat, payer: string)
    requires OnlyMoved(cfg, s, s', i) && PathMove(s, s', i)
    requires PostMove(cfg, s, s', i) && LogMove(cfg, s, s', i) && LocksMove(cfg.calls[i], s, s', i)
    requires Locks(cfg, s) && PathShape(cfg.env, cfg.calls[i], s.calls[i])
    requires PayerOrder(cfg, s, payer)
    ensures PayerOrder(cfg, s', payer)
  {
    hide Unpublished, PostedBy, CapturedBy, PathShape, Locks, LocksMove, PathMove;
    UnpublishedMoves(cfg, s, s', i, payer);
    if s.calls[i].pc.Credited? && AllMinted(s.calls[i]) {
      PostedByAppend(cfg, s.h.posted, i, payer);
    } else if s.calls[i].pc.Saved? {
      CapturedByAppend(cfg, s.h.logged, Logged(i, s.calls[i].pc.out.Paid?), payer);
    }
  }

  /** The invariant of the histories. */
  ghost predicate Chronicle(cfg: Config, s: State) {
    && Coherent(cfg, s)
    && JournalFits(cfg, s)
    && LogFits(cfg, s)
    && NumbersFresh(s)
    && SeqOrder(cfg, s)
    && (forall payer :: PayerOrder(cfg, s, payer))
  }

  ghost predicate HistoryMoves(cfg: Config, s: State, s': State, i: nat) {
    && OnlyMoved(cfg, s, s', i)
    && PostMove(cfg, s, s', i) && LogMove(cfg, s, s', i) && MintMove(s, s', i) && PathMove(s, s', i)
    && LocksMove(cfg.calls[i], s, s', i)
  }

  lemma StepHistoryMoves(cfg: Config, s: State, i: nat, b: bool)
    requires Coherent(cfg, s) && Enabled(cfg, s, i)
    ensures HistoryMoves(cfg, s, Next(cfg, s, i, b), i)
  {
    assert CallShape(cfg.env, cfg.calls[i], s.calls[i]);
    assert LookupShape(cfg.calls[i], s.g, s.calls[i].pc);
    StepPosts(cfg, s, i, b);
    StepLogs(cfg, s, i, b);
    StepMints(cfg, s, i, b);
    StepFollowsPath(cfg, s, i, b);
    StepMoves(cfg, s, i, b);
  }

  lemma SeqOrderKept(cfg: Config, s: State, s': State, i: nat)
    requires HistoryMoves(cfg, s, s', i)
    requires Locks(cfg, s) && NumbersFresh(s)
    requires JournalFits(cfg, s) && JournalFits(cfg, s') && SeqOrder(cfg, s)
    ensures SeqOrder(cfg, s')
  {
    forall k, l | 0 <= k < l < |s'.h.posted|
      ensures InOrder(cfg, s', k, l)
    {
      InOrderKept(cfg, s, s', i, k, l);
    }
    forall k, j | 0 <= k < |s'.h.posted| && 0 <= j < |s'.calls|
      ensures AheadOf(cfg, s', k, j)
    {
      AheadKept(cfg, s, s', i, k, j);
    }
  }

  lemma ChronicleStep(cfg: Config, s: State, i: nat, b: bool)
    requires Chronicle(cfg, s) && Enabled(cfg, s, i)
    ensures Chronicle(cfg, Next(cfg, s, i, b))
  {
    var s' := Next(cfg, s, i, b);
    CoherentStep(cfg, s, i, b);
    StepHistoryMoves(cfg, s, i, b);
    JournalKept(cfg, s, s', i);
    LogKept(cfg, s, s', i);
    NumbersKept(cfg, s, s', i);
    SeqOrderKept(cfg, s, s', i);
    assert CallShape(cfg.env, cfg.calls[i], s.calls[i]);
    forall payer
      ensures PayerOrder(cfg, s', payer)
    {
      PayerOrderKept(cfg, s, s', i, payer);
    }
  }

  lemma ChronicleInit(cfg: Config)
    ensures Chronicle(cfg, Init(cfg))
  {
    CoherentInit(cfg);
  }

  lemma {:induction false} AlwaysChronicle(cfg: Config, sched: seq<Pick>)
    ensures Chronicle(cfg, Exec(cfg, sched))
  {
    hide Chronicle, CanMove, StepOf;
    if sched == [] {
      ChronicleInit(cfg);
    } else {
      var before := Exec(cfg, sched[..|sched| - 1]);
      var p := sched[|sched| - 1];
      AlwaysChronicle(cfg, sched[..|sched| - 1]);
      if Enabled(cfg, before, p.call) {
        ChronicleStep(cfg, before, p.call, p.seqFirst);
      }
    }
  }
}
