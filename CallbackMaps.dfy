/**
 * The ordered, keyed callback registry used for permanent message callbacks and
 * for the transport opened/closed observers. Each entry is keyed by a
 * (name, priority) pair; the registry is kept ordered by tier first
 * (FIRST < ASAP < NORMAL) and then by name, and holds at most one entry per key.
 * The ordering is an assumption of the model: the registry's own definition is
 * not part of it, and the order follows the documented invocation order.
 */
module CallbackMaps {
  import opened Wrappers
  import opened CrierTypes

  /** Opaque identity of a user callback; invocations are recorded by id. */
  type CallbackId = nat

  /** The registry key: the user-chosen name together with the tier. */
  datatype ObserverKey = ObserverKey(name: string, priority: CallbackPriority)

  datatype Entry = Entry(key: ObserverKey, callback: CallbackId)

  /** An ordered association list standing for the ordered map. */
  type CallbackMap = seq<Entry>

  // ---------------------------------------------------------------- key order

  /** Lexicographic order on strings, as the standard string comparison. */
  predicate StrLess(a: string, b: string)
    decreases |a|
  {
    if a == [] then b != []
    else if b == [] then false
    else if a[0] < b[0] then true
    else if a[0] == b[0] then StrLess(a[1..], b[1..])
    else false
  }

  lemma {:induction false} StrLessIrreflexive(a: string)
    ensures !StrLess(a, a)
    decreases |a|
  {
    if a != [] {
      StrLessIrreflexive(a[1..]);
    }
  }

  lemma {:induction false} StrLessTransitive(a: string, b: string, c: string)
    requires StrLess(a, b) && StrLess(b, c)
    ensures StrLess(a, c)
    decreases |a|
  {
    if a != [] && b != [] && c != [] && a[0] == b[0] && b[0] == c[0] {
      StrLessTransitive(a[1..], b[1..], c[1..]);
    }
  }

  lemma {:induction false} StrLessTotal(a: string, b: string)
    ensures a == b || StrLess(a, b) || StrLess(b, a)
    decreases |a|
  {
    if a != [] && b != [] && a[0] == b[0] {
      StrLessTotal(a[1..], b[1..]);
      if a[1..] == b[1..] {
        assert a == [a[0]] + a[1..] && b == [b[0]] + b[1..];
      }
    }
  }

  /** Tier first, then name: the documented invocation order. */
  predicate KeyLess(a: ObserverKey, b: ObserverKey)
  {
    Rank(a.priority) < Rank(b.priority)
    || (a.priority == b.priority && StrLess(a.name, b.name))
  }

  lemma KeyLessIrreflexive(a: ObserverKey)
    ensures !KeyLess(a, a)
  {
    StrLessIrreflexive(a.name);
  }

  lemma KeyLessTransitive(a: ObserverKey, b: ObserverKey, c: ObserverKey)
    requires KeyLess(a, b) && KeyLess(b, c)
    ensures KeyLess(a, c)
  {
    if a.priority == b.priority && b.priority == c.priority {
      StrLessTransitive(a.name, b.name, c.name);
    }
  }

  lemma KeyLessTotal(a: ObserverKey, b: ObserverKey)
    ensures a == b || KeyLess(a, b) || KeyLess(b, a)
  {
    StrLessTotal(a.name, b.name);
    ExactlyThreeTiers();
  }

  // ---------------------------------------------------------------- registry

  /** Strictly increasing keys: ordered, and therefore one entry per key. */
  ghost predicate Sorted(m: CallbackMap)
  {
    forall i, j :: 0 <= i < j < |m| ==> KeyLess(m[i].key, m[j].key)
  }

  /** The callback stored under key k, if any (first entry with that key). */
  function Find(m: CallbackMap, k: ObserverKey): (r: Option<CallbackId>)
    ensures r.Some? <==> exists i :: 0 <= i < |m| && m[i].key == k
  {
    if m == [] then None
    else if m[0].key == k then Some(m[0].callback)
    else
      var r := Find(m[1..], k);
      assert forall i :: 1 <= i < |m| ==> m[i] == m[1..][i - 1];
      r
  }

  /** Upsert: replaces the callback stored under k, or inserts it at its ordered position. */
  function Insert(m: CallbackMap, k: ObserverKey, cb: CallbackId): (r: CallbackMap)
    ensures Entry(k, cb) in r
    ensures |m| <= |r| <= |m| + 1
  {
    if m == [] then [Entry(k, cb)]
    else if m[0].key == k then [Entry(k, cb)] + m[1..]
    else if KeyLess(k, m[0].key) then [Entry(k, cb)] + m
    else [m[0]] + Insert(m[1..], k, cb)
  }

  /** Removes the entry stored under k (nothing happens when there is none). */
  function Erase(m: CallbackMap, k: ObserverKey): (r: CallbackMap)
    ensures |r| <= |m|
    ensures forall i :: 0 <= i < |r| ==> r[i].key != k
  {
    if m == [] then []
    else if m[0].key == k then Erase(m[1..], k)
    else [m[0]] + Erase(m[1..], k)
  }

  /** The callbacks in registry order (the values of the ordered map). */
  function Values(m: CallbackMap): (vs: seq<CallbackId>)
    ensures |vs| == |m|
    ensures forall i :: 0 <= i < |m| ==> vs[i] == m[i].callback
  {
    if m == [] then [] else [m[0].callback] + Values(m[1..])
  }

  /** Copies the values of the registry into a vector, in registry order. */
  method MapToVectorCopy(source: CallbackMap) returns (retVal: seq<CallbackId>)
    ensures retVal == Values(source)
  {
    retVal := [];
    var i := 0;
    while i < |source|
      invariant 0 <= i <= |source|
      invariant retVal == Values(source[..i])
    {
      ValuesAppend(source[..i], source[i]);
      assert source[..i + 1] == source[..i] + [source[i]];
      retVal := retVal + [source[i].callback];
      i := i + 1;
    }
    assert source[..i] == source;
  }

  lemma ValuesAppend(m: CallbackMap, e: Entry)
    ensures Values(m + [e]) == Values(m) + [e.callback]
  {
  }

  // ---------------------------------------------------------------- properties

  /** Ordered keys are pairwise distinct: at most one entry per (name, priority). */
  lemma SortedUniqueKeys(m: CallbackMap, i: int, j: int)
    requires Sorted(m)
    requires 0 <= i < |m| && 0 <= j < |m| && i != j
    ensures m[i].key != m[j].key
  {
    if m[i].key == m[j].key { KeyLessIrreflexive(m[i].key); }
  }

  /**
   * Tier order of invocation: in a well-formed registry, every FIRST entry comes
   * before every ASAP entry, and every ASAP entry before every NORMAL entry.
   */
  lemma SortedTierOrder(m: CallbackMap, i: int, j: int)
    requires Sorted(m)
    requires 0 <= i < j < |m|
    ensures Rank(m[i].key.priority) <= Rank(m[j].key.priority)
    ensures m[i].key.priority == m[j].key.priority ==> StrLess(m[i].key.name, m[j].key.name)
  {
    assert KeyLess(m[i].key, m[j].key);
  }

  /** Every key of an upserted registry is the new key or was already there. */
  lemma {:induction false} InsertKeys(m: CallbackMap, k: ObserverKey, cb: CallbackId)
    ensures forall e :: e in Insert(m, k, cb) ==> e == Entry(k, cb) || e in m
    ensures Entry(k, cb) in Insert(m, k, cb)
  {
    if m != [] && m[0].key != k && !KeyLess(k, m[0].key) {
      InsertKeys(m[1..], k, cb);
      assert forall e :: e in m[1..] ==> e in m;
    }
  }

  /** The tail of an ordered registry is ordered, and its head's key is below all of the tail's. */
  lemma SortedHead(m: CallbackMap)
    requires Sorted(m) && m != []
    ensures Sorted(m[1..])
    ensures forall x :: x in m[1..] ==> KeyLess(m[0].key, x.key)
  {
    forall x | x in m[1..] ensures KeyLess(m[0].key, x.key) {
      var jj :| 0 <= jj < |m[1..]| && m[1..][jj] == x;
      assert m[jj + 1] == x;
    }
  }

  /** An entry whose key is below every key of an ordered registry can go in front of it. */
  lemma ConsSorted(h: Entry, tail: CallbackMap)
    requires Sorted(tail)
    requires forall x :: x in tail ==> KeyLess(h.key, x.key)
    ensures Sorted([h] + tail)
  {
    var r := [h] + tail;
    forall i, j | 0 <= i < j < |r| ensures KeyLess(r[i].key, r[j].key) {
      if i == 0 {
        assert r[j] == tail[j - 1];
      } else {
        assert r[i] == tail[i - 1] && r[j] == tail[j - 1];
      }
    }
  }

  /** Upsert keeps the registry ordered. */
  lemma {:induction false} InsertSorted(m: CallbackMap, k: ObserverKey, cb: CallbackId)
    requires Sorted(m)
    ensures Sorted(Insert(m, k, cb))
  {
    if m == [] {
    } else if m[0].key == k {
      SortedHead(m);
      ConsSorted(Entry(k, cb), m[1..]);
    } else if KeyLess(k, m[0].key) {
      SortedHead(m);
      forall x | x in m ensures KeyLess(k, x.key) {
        if x != m[0] {
          assert x in m[1..];
          KeyLessTransitive(k, m[0].key, x.key);
        }
      }
      ConsSorted(Entry(k, cb), m);
    } else {
      KeyLessTotal(k, m[0].key);
      SortedHead(m);
      InsertSorted(m[1..], k, cb);
      InsertKeys(m[1..], k, cb);
      ConsSorted(m[0], Insert(m[1..], k, cb));
    }
  }

  /** Upsert stores cb under k and leaves every other key's callback as it was. */
  lemma {:induction false} InsertFind(m: CallbackMap, k: ObserverKey, cb: CallbackId, k': ObserverKey)
    ensures Find(Insert(m, k, cb), k') == if k' == k then Some(cb) else Find(m, k')
  {
    if m != [] && m[0].key != k && !KeyLess(k, m[0].key) {
      InsertFind(m[1..], k, cb, k');
      assert Insert(m, k, cb)[1..] == Insert(m[1..], k, cb);
    }
  }

  /** Re-registering an existing key overwrites in place; a new key adds exactly one entry. */
  lemma {:induction false} InsertSize(m: CallbackMap, k: ObserverKey, cb: CallbackId)
    requires Sorted(m)
    ensures |Insert(m, k, cb)| == if Find(m, k).Some? then |m| else |m| + 1
  {
    if m == [] {
    } else if m[0].key == k {
    } else if KeyLess(k, m[0].key) {
      if Find(m, k).Some? {
        var i :| 0 <= i < |m| && m[i].key == k;
        if i > 0 { KeyLessTransitive(k, m[0].key, m[i].key); }
        KeyLessIrreflexive(k);
      }
    } else {
      assert Sorted(m[1..]);
      InsertSize(m[1..], k, cb);
    }
  }

  /** Erasing removes exactly key k and keeps every other key's callback. */
  lemma {:induction false} EraseFind(m: CallbackMap, k: ObserverKey, k': ObserverKey)
    ensures Find(Erase(m, k), k') == if k' == k then None else Find(m, k')
  {
    if m != [] {
      EraseFind(m[1..], k, k');
    }
  }

  /**
   * Erasing removes exactly the entries with that key: an entry is in the
   * result if and only if it is in the map under another key. (That the
   * remaining entries stay ordered is `EraseSorted`.)
   */
  lemma {:induction false} EraseSubsequence(m: CallbackMap, k: ObserverKey)
    ensures forall e :: e in Erase(m, k) ==> e in m && e.key != k
    ensures forall e :: e in m && e.key != k ==> e in Erase(m, k)
  {
    if m != [] {
      EraseSubsequence(m[1..], k);
      assert forall e :: e in m ==> e == m[0] || e in m[1..];
    }
  }

  /** Erasing keeps the registry ordered. */
  lemma {:induction false} EraseSorted(m: CallbackMap, k: ObserverKey)
    requires Sorted(m)
    ensures Sorted(Erase(m, k))
  {
    if m != [] {
      assert Sorted(m[1..]);
      EraseSorted(m[1..], k);
      EraseSubsequence(m[1..], k);
      if m[0].key != k {
        var tail := Erase(m[1..], k);
        var r := [m[0]] + tail;
        forall i, j | 0 <= i < j < |r| ensures KeyLess(r[i].key, r[j].key) {
          if i == 0 {
            assert r[j] in m[1..];
            var jj :| 0 <= jj < |m[1..]| && m[1..][jj] == r[j];
            assert m[jj + 1] == r[j];
          } else {
            assert r[i] == tail[i - 1] && r[j] == tail[j - 1];
          }
        }
      }
    }
  }

  /** The one-entry registry is ordered (used for the first registration of a key). */
  lemma EmptyAndSingletonSorted(k: ObserverKey, cb: CallbackId)
    ensures Sorted([]) && Sorted([Entry(k, cb)])
    ensures Insert([], k, cb) == [Entry(k, cb)]
  {
  }
}
