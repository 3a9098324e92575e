/**
 * Per-type timeout lists. Each scheduled timeout is an entry {id, valid, callback};
 * ids come from one engine-wide counter. A response invalidates the earliest
 * still-valid entry of its type; a firing timer looks at its own entry and always
 * removes it.
 */
module Timeouts {
  import opened Wrappers
  import opened CallbackMaps
  import opened Envelope

  datatype TimeoutData = TimeoutData(id: nat, valid: bool, callback: CallbackId)

  type TimeoutList = seq<TimeoutData>

  /** Marks the earliest still-valid entry invalid; no entry is added, removed or reordered. */
  function InvalidateFirst(l: TimeoutList): (r: TimeoutList)
    ensures |r| == |l|
    ensures forall i :: 0 <= i < |l| ==> r[i].id == l[i].id && r[i].callback == l[i].callback
    ensures (forall i :: 0 <= i < |l| ==> !l[i].valid) ==> r == l
  {
    if l == [] then []
    else if l[0].valid then [l[0].(valid := false)] + l[1..]
    else [l[0]] + InvalidateFirst(l[1..])
  }

  /** When entry i is the earliest valid one, it is the one entry that changes, and it becomes invalid. */
  lemma {:induction false} InvalidateFirstAt(l: TimeoutList, i: nat)
    requires i < |l| && l[i].valid
    requires forall j :: 0 <= j < i ==> !l[j].valid
    ensures InvalidateFirst(l) == l[i := l[i].(valid := false)]
  {
    var v := l[i].(valid := false);
    if i == 0 {
      assert l[0 := v] == [v] + l[1..];
    } else {
      assert InvalidateFirst(l) == [l[0]] + InvalidateFirst(l[1..]);
      InvalidateFirstAt(l[1..], i - 1);
      ConsUpdate(l, i, v);
    }
  }

  /** Updating the tail of a list at j - 1 is updating the list at j. */
  lemma ConsUpdate(l: TimeoutList, j: nat, v: TimeoutData)
    requires 0 < j < |l|
    ensures [l[0]] + l[1..][j - 1 := v] == l[j := v]
  {
  }

  /** Marks every entry invalid (engine shutdown). */
  function InvalidateAll(l: TimeoutList): (r: TimeoutList)
    ensures |r| == |l|
    ensures forall i :: 0 <= i < |l| ==> r[i] == l[i].(valid := false)
  {
    seq(|l|, i requires 0 <= i < |l| => l[i].(valid := false))
  }

  /** Removes every entry carrying the given id. */
  function RemoveId(l: TimeoutList, id: nat): (r: TimeoutList)
    ensures forall x :: x in r <==> x in l && x.id != id
  {
    if l == [] then []
    else if l[0].id == id then RemoveId(l[1..], id)
    else [l[0]] + RemoveId(l[1..], id)
  }

  /** The entry carrying the given id, if the list holds one. */
  function EntryWithId(l: TimeoutList, id: nat): (r: Option<TimeoutData>)
    ensures r.Some? ==> r.value in l && r.value.id == id
    ensures r.None? ==> forall x :: x in l ==> x.id != id
  {
    if l == [] then None
    else if l[0].id == id then Some(l[0])
    else EntryWithId(l[1..], id)
  }

  /** The ids present in a list. */
  ghost function IdSet(l: TimeoutList): set<nat>
  {
    set x | x in l :: x.id
  }

  /** Ids strictly increase along a list: entries are kept in scheduling order. */
  ghost predicate Increasing(l: TimeoutList)
  {
    forall i, j :: 0 <= i < j < |l| ==> l[i].id < l[j].id
  }

  /**
   * The bookkeeping invariant of the timeout table: within each type the ids
   * increase, every id is below the counter, and no id occurs under two types.
   */
  ghost predicate WellFormed(m: map<TypeKey, TimeoutList>, counter: nat)
  {
    && (forall t :: t in m ==> Increasing(m[t]))
    && (forall t, x :: t in m && x in m[t] ==> x.id < counter)
    && (forall t1, t2 :: t1 in m && t2 in m && t1 != t2 ==> IdSet(m[t1]) !! IdSet(m[t2]))
  }

  lemma InvalidateFirstKeepsIds(l: TimeoutList)
    ensures IdSet(InvalidateFirst(l)) == IdSet(l)
    ensures Increasing(l) ==> Increasing(InvalidateFirst(l))
  {
    var r := InvalidateFirst(l);
    forall n | n in IdSet(r) ensures n in IdSet(l) {
      var x :| x in r && x.id == n;
      var i :| 0 <= i < |r| && r[i] == x;
      assert l[i] in l;
    }
    forall n | n in IdSet(l) ensures n in IdSet(r) {
      var x :| x in l && x.id == n;
      var i :| 0 <= i < |l| && l[i] == x;
      assert r[i] in r;
    }
  }

  lemma InvalidateAllKeepsIds(l: TimeoutList)
    ensures IdSet(InvalidateAll(l)) == IdSet(l)
    ensures Increasing(l) ==> Increasing(InvalidateAll(l))
  {
    var r := InvalidateAll(l);
    forall n | n in IdSet(r) ensures n in IdSet(l) {
      var x :| x in r && x.id == n;
      var i :| 0 <= i < |r| && r[i] == x;
      assert l[i] in l;
    }
    forall n | n in IdSet(l) ensures n in IdSet(r) {
      var x :| x in l && x.id == n;
      var i :| 0 <= i < |l| && l[i] == x;
      assert r[i] in r;
    }
  }

  /** Removing entries drops exactly the removed id. */
  lemma RemoveIdDropsId(l: TimeoutList, id: nat)
    ensures IdSet(RemoveId(l, id)) == IdSet(l) - {id}
  {
    var r := RemoveId(l, id);
    forall n | n in IdSet(l) - {id} ensures n in IdSet(r) {
      var x :| x in l && x.id == n;
      assert x in r;
    }
  }

  lemma ConsIncreasing(h: TimeoutData, tail: TimeoutList)
    requires Increasing(tail)
    requires forall x :: x in tail ==> h.id < x.id
    ensures Increasing([h] + tail)
  {
    var r := [h] + tail;
    forall i, j | 0 <= i < j < |r| ensures r[i].id < r[j].id {
      if i == 0 {
        assert r[j] == tail[j - 1];
      } else {
        assert r[i] == tail[i - 1] && r[j] == tail[j - 1];
      }
    }
  }

  lemma IncreasingHead(l: TimeoutList)
    requires Increasing(l) && l != []
    ensures Increasing(l[1..])
    ensures forall x :: x in l[1..] ==> l[0].id < x.id
  {
    forall x | x in l[1..] ensures l[0].id < x.id {
      var k :| 0 <= k < |l[1..]| && l[1..][k] == x;
      assert l[k + 1] == x;
    }
  }

  /** Removing entries keeps the remaining ones in scheduling order. */
  lemma {:induction false} RemoveIdKeepsOrder(l: TimeoutList, id: nat)
    requires Increasing(l)
    ensures Increasing(RemoveId(l, id))
  {
    if l != [] {
      IncreasingHead(l);
      RemoveIdKeepsOrder(l[1..], id);
      if l[0].id != id {
        ConsIncreasing(l[0], RemoveId(l[1..], id));
      }
    }
  }

  /** The table with no timeouts is well formed. */
  lemma EmptyWellFormed(counter: nat)
    ensures WellFormed(map[], counter)
  {
  }

  /** Scheduling appends an entry with the counter's value and advances the counter. */
  lemma {:induction false} AppendFreshKeepsWellFormed(m: map<TypeKey, TimeoutList>, counter: nat, t: TypeKey, cb: CallbackId)
    requires WellFormed(m, counter)
    ensures var l := if t in m then m[t] else [];
            WellFormed(m[t := l + [TimeoutData(counter, true, cb)]], counter + 1)
  {
    var l := if t in m then m[t] else [];
    var l' := l + [TimeoutData(counter, true, cb)];
    var m' := m[t := l'];
    assert IdSet(l') == IdSet(l) + {counter} by {
      assert forall x :: x in l' <==> x in l || x == TimeoutData(counter, true, cb);
    }
    forall t1, t2 | t1 in m' && t2 in m' && t1 != t2 ensures IdSet(m'[t1]) !! IdSet(m'[t2]) {
      if t1 == t {
        assert counter !in IdSet(m'[t2]);
      } else if t2 == t {
        assert counter !in IdSet(m'[t1]);
      }
    }
    assert Increasing(l') by {
      forall i, j | 0 <= i < j < |l'| ensures l'[i].id < l'[j].id {
        if j == |l| { assert l[i] in l; } else { assert l'[i] == l[i] && l'[j] == l[j]; }
      }
    }
  }

  /** Replacing one type's list by a list with a subset of its ids keeps the table well formed. */
  lemma ReplaceKeepsWellFormed(m: map<TypeKey, TimeoutList>, counter: nat, t: TypeKey, l': TimeoutList)
    requires WellFormed(m, counter)
    requires Increasing(l')
    requires IdSet(l') <= IdSet(if t in m then m[t] else [])
    ensures WellFormed(m[t := l'], counter)
  {
    var l := if t in m then m[t] else [];
    forall x | x in l' ensures x.id < counter {
      assert x.id in IdSet(l');
      var y :| y in l && y.id == x.id;
    }
  }
}
