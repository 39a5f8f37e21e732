/** The remaining in-memory adapters and the identifier source. Each method is one critical section. */
module Stores {
  import opened Common
  import opened Domain
  import opened Decimal

  /** Identifiers are prefix, underscore, decimal counter. */
  function IdText(prefix: string, n: nat): string {
    prefix + "_" + PrintNat(n)
  }

  lemma IdTextInjective(prefix: string, m: nat, n: nat)
    requires IdText(prefix, m) == IdText(prefix, n)
    ensures m == n
  {
    var k := |prefix + "_"|;
    assert IdText(prefix, m)[k..] == PrintNat(m);
    assert IdText(prefix, n)[k..] == PrintNat(n);
    PrintNatInjective(m, n);
  }

  lemma IdTextExample()
    ensures IdText("txn", 42) == "txn_42"
  {
    assert PrintNat(4) == "4";
    assert PrintNat(42) == "4" + "2";
  }

  class IdGenerator {
    const prefix: string
    var counter: nat

    constructor (prefix: string, start: nat)
      ensures this.prefix == prefix && counter == start
    {
      this.prefix := prefix;
      counter := start;
    }

    /** The atomic fetch-and-add: the counter wraps after 2^64 calls. */
    method NextRaw() returns (n: nat)
      modifies this
      ensures n == old(counter)
      ensures counter == (old(counter) + 1) % UINT64_COUNT
    {
      n := counter;
      counter := (counter + 1) % UINT64_COUNT;
    }

    method Next() returns (id: string)
      modifies this
      ensures id == IdText(prefix, old(counter))
      ensures counter == (old(counter) + 1) % UINT64_COUNT
    {
      var n := NextRaw();
      id := prefix + "_" + PrintNat(n);
    }
  }

  class InMemoryIdempotencyStore {
    var store: map<string, string>

    constructor ()
      ensures store == map[]
    {
      store := map[];
    }

    method Get(key: string) returns (r: Option<string>)
      ensures r == if key in store then Some(store[key]) else None
    {
      r := if key in store then Some(store[key]) else None;
    }

    /** First writer wins; a later claim of the same key changes nothing. */
    method PutIfAbsent(key: string, txnId: string) returns (inserted: bool)
      modifies this
      ensures inserted == (key !in old(store))
      ensures store == if inserted then old(store)[key := txnId] else old(store)
      ensures key in store && (forall k :: k in old(store) ==> k in store && store[k] == old(store)[k])
    {
      inserted := key !in store;
      if inserted {
        store := store[key := txnId];
      }
    }
  }

  class InMemoryTransactionRepository {
    var store: map<string, Transaction>

    constructor ()
      ensures store == map[]
    {
      store := map[];
    }

    method Find(id: string) returns (r: Option<Transaction>)
      ensures r == if id in store then Some(store[id]) else None
    {
      r := if id in store then Some(store[id]) else None;
    }

    method Save(t: Transaction)
      modifies this
      ensures store == old(store)[t.id := t]
    {
      store := store[t.id := t];
    }
  }

  class InMemoryEventPublisher {
    var log: seq<DomainEvent>

    constructor ()
      ensures log == []
    {
      log := [];
    }

    method Publish(event: DomainEvent)
      modifies this
      ensures log == old(log) + [event]
    {
      log := log + [event];
    }
  }

  /** One mutex per key, created the first time the key is asked for and never removed. */
  class InMemoryDistributedLock {
    var locks: map<string, Option<nat>>

    constructor ()
      ensures locks == map[]
    {
      locks := map[];
    }

    method MutexFor(key: string) returns (holder: Option<nat>)
      modifies this
      ensures key in locks && locks[key] == holder
      ensures locks == if key in old(locks) then old(locks) else old(locks)[key := None]
    {
      if key !in locks {
        locks := locks[key := None];
      }
      holder := locks[key];
    }

    /** One attempt: it succeeds exactly when nobody holds the key, and a caller that fails tries again. */
    method Acquire(key: string, me: nat) returns (acquired: bool)
      modifies this
      ensures acquired <==> (key in old(locks) ==> old(locks)[key].None?)
      ensures locks == if acquired then old(locks)[key := Some(me)] else old(locks)
    {
      var holder := MutexFor(key);
      acquired := holder.None?;
      if acquired {
        locks := locks[key := Some(me)];
      }
    }

    /** The guard's destructor. */
    method Release(key: string)
      requires key in locks && locks[key].Some?
      modifies this
      ensures locks == old(locks)[key := None]
    {
      locks := locks[key := None];
    }
  }
}
