/** The append-only double-entry journal. */
module Ledger {
  import opened Common
  import opened Domain

  /** Signed sum of a batch, whatever its currencies. */
  function Net(entries: seq<LedgerEntry>): int {
    if entries == [] then 0
    else Net(entries[..|entries| - 1]) + SignedMinor(entries[|entries| - 1])
  }

  predicate OneCurrency(entries: seq<LedgerEntry>) {
    forall i :: 0 <= i < |entries| ==> entries[i].amount.ccy == entries[0].amount.ccy
  }

  /** The decision on a batch. */
  function PostStatus(entries: seq<LedgerEntry>): Status {
    if entries == [] then Fail(ValidationFailed)
    else if !OneCurrency(entries) then Fail(ValidationFailed)
    else if Net(entries) != 0 then Fail(InternalError)
    else Okay
  }

  /** The amounts the running sum meets before the first foreign currency stay inside int64. */
  ghost predicate SumsFit(entries: seq<LedgerEntry>) {
    forall k :: 0 <= k <= |entries| && OneCurrency(entries[..k]) ==>
      InInt64(Net(entries[..k])) && forall j :: 0 <= j < k ==> InInt64(SignedMinor(entries[j]))
  }

  /** Which lines of the journal count for an account. */
  function EntriesFor(journal: seq<LedgerEntry>, account: string): seq<LedgerEntry> {
    if journal == [] then []
    else
      var e := journal[|journal| - 1];
      var rest := EntriesFor(journal[..|journal| - 1], account);
      if e.account == account then rest + [e] else rest
  }

  /** Signed sum of the lines in one currency. */
  function NetIn(entries: seq<LedgerEntry>, ccy: Currency): int {
    if entries == [] then 0
    else
      var e := entries[|entries| - 1];
      NetIn(entries[..|entries| - 1], ccy) + (if e.amount.ccy == ccy then SignedMinor(e) else 0)
  }

  lemma {:induction false} NetInAppend(a: seq<LedgerEntry>, b: seq<LedgerEntry>, ccy: Currency)
    ensures NetIn(a + b, ccy) == NetIn(a, ccy) + NetIn(b, ccy)
  {
    if b == [] {
      assert a + b == a;
    } else {
      var n := |a + b| - 1;
      assert (a + b)[..n] == a + b[..|b| - 1];
      NetInAppend(a, b[..|b| - 1], ccy);
    }
  }

  lemma {:induction false} NetInOfOneCurrency(entries: seq<LedgerEntry>, ccy: Currency)
    requires OneCurrency(entries)
    ensures NetIn(entries, ccy) == if entries != [] && entries[0].amount.ccy == ccy then Net(entries) else 0
  {
    if entries != [] {
      var rest := entries[..|entries| - 1];
      NetInOfOneCurrency(rest, ccy);
    }
  }

  /** The decision on a batch, exactly. */
  lemma PostDecides(entries: seq<LedgerEntry>)
    ensures PostStatus(entries) == Okay
       <==> entries != [] && Net(entries) == 0 && forall e :: e in entries ==> e.amount.ccy == entries[0].amount.ccy
    ensures PostStatus(entries) == Fail(ValidationFailed)
       <==> entries == [] || exists e :: e in entries && e.amount.ccy != entries[0].amount.ccy
    ensures PostStatus(entries).Fail? ==> PostStatus(entries).code in {ValidationFailed, InternalError}
  {
    if !OneCurrency(entries) {
      var i :| 0 <= i < |entries| && entries[i].amount.ccy != entries[0].amount.ccy;
      assert entries[i] in entries;
    }
  }

  /** Sums go over all lines, each line once with its sign. */
  lemma {:induction false} NetIsSum(a: seq<LedgerEntry>, e: LedgerEntry, b: seq<LedgerEntry>)
    ensures Net(a + [e] + b) == Net(a) + SignedMinor(e) + Net(b)
    ensures Net([]) == 0
  {
    if b == [] {
      assert a + [e] + b == a + [e];
      assert (a + [e])[..|a|] == a;
    } else {
      var n := |b| - 1;
      assert (a + [e] + b)[..|a| + 1 + n] == a + [e] + b[..n];
      NetIsSum(a, e, b[..n]);
    }
  }

  lemma NetInIsSum(e: LedgerEntry, ccy: Currency)
    ensures NetIn([], ccy) == 0
    ensures NetIn([e], ccy) == if e.amount.ccy == ccy then SignedMinor(e) else 0
  {
    assert [e][..0] == [];
  }

  /** `entriesFor` keeps exactly the lines of the account, in journal order: line by line, from left to right. */
  lemma {:induction false} EntriesInOrder(a: seq<LedgerEntry>, b: seq<LedgerEntry>, e: LedgerEntry, account: string)
    ensures EntriesFor(a + b, account) == EntriesFor(a, account) + EntriesFor(b, account)
    ensures EntriesFor([e], account) == if e.account == account then [e] else []
    ensures EntriesFor([], account) == []
  {
    assert [e][..0] == [];
    if b == [] {
      assert a + b == a;
    } else {
      var n := |b| - 1;
      assert (a + b)[..|a| + n] == a + b[..n];
      EntriesInOrder(a, b[..n], e, account);
    }
  }

  /** An accepted batch balances in every currency. */
  lemma AcceptedBatchBalances(entries: seq<LedgerEntry>, ccy: Currency)
    requires PostStatus(entries).Okay?
    ensures NetIn(entries, ccy) == 0
  {
    NetInOfOneCurrency(entries, ccy);
  }

  /** A run of the ledger: batches are offered one after the other and each is accepted or rejected. */
  function PostAll(batches: seq<seq<LedgerEntry>>): seq<LedgerEntry> {
    if batches == [] then []
    else
      var journal := PostAll(batches[..|batches| - 1]);
      var batch := batches[|batches| - 1];
      if PostStatus(batch).Okay? then journal + batch else journal
  }

  /** Trial balance: at every posting boundary the journal nets to zero in every currency,
      and earlier boundaries are prefixes of later ones, so history is never rewritten. */
  lemma {:induction false} TrialBalance(batches: seq<seq<LedgerEntry>>, k: nat, ccy: Currency)
    requires k <= |batches|
    ensures NetIn(PostAll(batches[..k]), ccy) == 0
    ensures PostAll(batches[..k]) <= PostAll(batches)
    decreases |batches| + k
  {
    if k < |batches| {
      assert batches[..|batches| - 1][..k] == batches[..k];
      TrialBalance(batches[..|batches| - 1], k, ccy);
    } else if 0 < k {
      assert batches[..k] == batches;
      var before := batches[..k - 1];
      assert before[..k - 1] == before;
      TrialBalance(before, k - 1, ccy);
      if PostStatus(batches[k - 1]).Okay? {
        NetInAppend(PostAll(before), batches[k - 1], ccy);
        AcceptedBatchBalances(batches[k - 1], ccy);
      }
    } else {
      assert batches == [];
    }
  }

  /** Sum over a list of accounts of what the journal says about each of them. */
  function BooksTotal(journal: seq<LedgerEntry>, accounts: seq<string>, ccy: Currency): int {
    if accounts == [] then 0
    else
      var earlier := BooksTotal(journal, accounts[..|accounts| - 1], ccy);
      earlier + NetIn(EntriesFor(journal, accounts[|accounts| - 1]), ccy)
  }

  lemma {:induction false} BooksTotalStep(journal: seq<LedgerEntry>, accounts: seq<string>, ccy: Currency)
    requires journal != [] && Distinct(accounts)
    ensures BooksTotal(journal, accounts, ccy) == BooksTotal(journal[..|journal| - 1], accounts, ccy)
      + (if journal[|journal| - 1].account in accounts && journal[|journal| - 1].amount.ccy == ccy
         then SignedMinor(journal[|journal| - 1]) else 0)
  {
    if accounts != [] {
      var e := journal[|journal| - 1];
      var init := accounts[..|accounts| - 1];
      var a := accounts[|accounts| - 1];
      BooksTotalStep(journal, init, ccy);
      assert a !in init;
      assert e.account in accounts <==> e.account in init || e.account == a;
      var rest := EntriesFor(journal[..|journal| - 1], a);
      assert (rest + [e])[..|rest|] == rest;
    }
  }

  /** Splitting the journal by account loses nothing: the per-account views of any list of distinct
      accounts that mentions every account in the journal add up to the journal's own net. */
  lemma {:induction false} BooksAddUp(journal: seq<LedgerEntry>, accounts: seq<string>, ccy: Currency)
    requires Distinct(accounts)
    requires forall k :: 0 <= k < |journal| ==> journal[k].account in accounts
    ensures BooksTotal(journal, accounts, ccy) == NetIn(journal, ccy)
    decreases |journal|, |accounts|
  {
    if journal == [] {
      NothingOnEmptyBooks(accounts, ccy);
    } else {
      var rest := journal[..|journal| - 1];
      forall k | 0 <= k < |rest|
        ensures rest[k].account in accounts
      {
        assert rest[k] == journal[k];
      }
      BooksAddUp(rest, accounts, ccy);
      BooksTotalStep(journal, accounts, ccy);
      assert journal[|journal| - 1].account in accounts;
    }
  }

  /** After any run of postings the per-account books of any complete list of accounts total zero. */
  lemma BooksBalance(batches: seq<seq<LedgerEntry>>, accounts: seq<string>, ccy: Currency)
    requires Distinct(accounts)
    requires forall k :: 0 <= k < |PostAll(batches)| ==> PostAll(batches)[k].account in accounts
    ensures BooksTotal(PostAll(batches), accounts, ccy) == 0
  {
    BooksAddUp(PostAll(batches), accounts, ccy);
    assert batches[..|batches|] == batches;
    TrialBalance(batches, |batches|, ccy);
  }

  lemma {:induction false} NothingOnEmptyBooks(accounts: seq<string>, ccy: Currency)
    ensures BooksTotal([], accounts, ccy) == 0
  {
    if accounts != [] {
      NothingOnEmptyBooks(accounts[..|accounts| - 1], ccy);
    }
  }

  class InMemoryLedgerRepository {
    var entries: seq<LedgerEntry>

    constructor ()
      ensures entries == []
    {
      entries := [];
    }

    /** All or nothing: a batch is appended whole exactly when it is non-empty, in one currency and nets to zero. */
    method Post(batch: seq<LedgerEntry>) returns (s: Status)
      requires SumsFit(batch)
      modifies this
      ensures s == PostStatus(batch)
      ensures s == Okay <==> batch != [] && Net(batch) == 0 && OneCurrency(batch)
      ensures s == Fail(ValidationFailed) <==> batch == [] || !OneCurrency(batch)
      ensures entries == if s.Okay? then old(entries) + batch else old(entries)
    {
      if batch == [] {
        return Fail(ValidationFailed);
      }
      var ccy := batch[0].amount.ccy;
      var net: int64 := 0;
      for i := 0 to |batch|
        invariant OneCurrency(batch[..i]) && (forall j :: 0 <= j < i ==> batch[j].amount.ccy == ccy)
        invariant net as int == Net(batch[..i])
      {
        if batch[i].amount.ccy != ccy {
          assert !OneCurrency(batch);
          return Fail(ValidationFailed);
        }
        assert OneCurrency(batch[..i + 1]);
        assert batch[..i + 1][..i] == batch[..i];
        assert Net(batch[..i + 1]) == net as int + SignedMinor(batch[i]);
        net := net + SignedMinor(batch[i]);
      }
      assert batch[..|batch|] == batch;
      if net != 0 {
        return Fail(InternalError);
      }
      Append(batch);
      return Okay;
    }

    method Append(batch: seq<LedgerEntry>)
      modifies this
      ensures entries == old(entries) + batch
    {
      for i := 0 to |batch|
        invariant entries == old(entries) + batch[..i]
      {
        entries := entries + [batch[i]];
        assert batch[..i + 1] == batch[..i] + [batch[i]];
      }
    }

    method EntriesOf(account: string) returns (out: seq<LedgerEntry>)
      ensures out == EntriesFor(entries, account)
    {
      out := [];
      for i := 0 to |entries|
        invariant out == EntriesFor(entries[..i], account)
      {
        assert entries[..i + 1][..i] == entries[..i];
        if entries[i].account == account {
          out := out + [entries[i]];
        }
      }
      assert entries[..|entries|] == entries;
    }
  }
}
