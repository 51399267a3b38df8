/** The list of pending timers and its editing operations, as TimerManager keeps it:
    ordered by deadline, and among equal deadlines by the order of insertion.

    The facts below come in three groups: what an edit does to membership, that it keeps the
    order and the ids distinct, and that selecting entries (Keep) commutes with it.  The last
    group is what lets each owner of timers reason about its own entries alone. */
module TimerList {

  const MIN_INTERVAL := 50
  const MAX_INTERVAL := 4096
  const MAX_TIMER_COUNT := 64
  const NONEXISTENT_ID := -1
  const INT64_MAX := 0x7fff_ffff_ffff_ffff

  /** A pending timer.  `epoch` numbers the AddTimer or ResetTimer call that armed it and
      `stamp` numbers its latest insertion; no branch of the program reads either. */
  datatype TimerItem<C> = TimerItem(
    id: int, interval: int, repeatCount: int, callbackCount: int, nextCallTime: int,
    callback: C, epoch: nat, stamp: nat)

  /** Earlier deadline first, ties in insertion order. */
  predicate Before<C(!new)>(a: TimerItem<C>, b: TimerItem<C>) {
    a.nextCallTime < b.nextCallTime || (a.nextCallTime == b.nextCallTime && a.stamp < b.stamp)
  }

  ghost predicate Sorted<C(!new)>(l: seq<TimerItem<C>>) {
    l == [] || ((forall t | t in l[1..] :: Before(l[0], t)) && Sorted(l[1..]))
  }

  /** No two entries share an id or an epoch. */
  ghost predicate Distinct<C(!new)>(l: seq<TimerItem<C>>) {
    l == [] || ((forall t | t in l[1..] :: t.id != l[0].id && t.epoch != l[0].epoch) && Distinct(l[1..]))
  }

  function Insert<C(!new)>(l: seq<TimerItem<C>>, t: TimerItem<C>): seq<TimerItem<C>> {
    if l == [] then [t]
    else if l[0].nextCallTime > t.nextCallTime then [t] + l
    else [l[0]] + Insert(l[1..], t)
  }

  function Erase<C(!new)>(l: seq<TimerItem<C>>, id: int): seq<TimerItem<C>> {
    if l == [] then [] else if l[0].id == id then l[1..] else [l[0]] + Erase(l[1..], id)
  }

  predicate HasId<C(!new)>(l: seq<TimerItem<C>>, id: int) {
    exists i :: 0 <= i < |l| && l[i].id == id
  }

  /** The first entry carrying `id`. */
  function Lookup<C(!new)>(l: seq<TimerItem<C>>, id: int): TimerItem<C>
    requires HasId(l, id)
  {
    if l[0].id == id then l[0] else assert HasId(l[1..], id) by { var i :| 0 <= i < |l| && l[i].id == id; assert l[1..][i - 1].id == id; } Lookup(l[1..], id)
  }

  /** The entries satisfying `p`, in list order. */
  function Keep<C(!new)>(l: seq<TimerItem<C>>, p: TimerItem<C> -> bool): seq<TimerItem<C>> {
    if l == [] then []
    else if p(l[0]) then [l[0]] + Keep(l[1..], p)
    else Keep(l[1..], p)
  }

  function Ids<C(!new)>(l: seq<TimerItem<C>>): seq<int> {
    seq(|l|, i requires 0 <= i < |l| => l[i].id)
  }

  function Epochs<C(!new)>(l: seq<TimerItem<C>>): seq<nat> {
    seq(|l|, i requires 0 <= i < |l| => l[i].epoch)
  }

  // ---------- membership ----------

  lemma {:induction false} InsertMember<C(!new)>(l: seq<TimerItem<C>>, t: TimerItem<C>, x: TimerItem<C>)
    ensures x in Insert(l, t) <==> x == t || x in l
  {
    if l != [] && l[0].nextCallTime <= t.nextCallTime {
      InsertMember(l[1..], t, x);
      assert l == [l[0]] + l[1..];
    }
  }

  lemma InsertMembers<C(!new)>(l: seq<TimerItem<C>>, t: TimerItem<C>)
    ensures forall x :: x in Insert(l, t) <==> x == t || x in l
  {
    forall x ensures x in Insert(l, t) <==> x == t || x in l { InsertMember(l, t, x); }
  }

  lemma {:induction false} EraseMember<C(!new)>(l: seq<TimerItem<C>>, id: int, x: TimerItem<C>)
    requires Distinct(l)
    ensures x in Erase(l, id) <==> x in l && x.id != id
  {
    if l != [] {
      assert l == [l[0]] + l[1..];
      if l[0].id != id { EraseMember(l[1..], id, x); }
    }
  }

  lemma EraseMembers<C(!new)>(l: seq<TimerItem<C>>, id: int)
    requires Distinct(l)
    ensures forall x :: x in Erase(l, id) <==> x in l && x.id != id
  {
    forall x ensures x in Erase(l, id) <==> x in l && x.id != id { EraseMember(l, id, x); }
  }

  lemma {:induction false} KeepMember<C(!new)>(l: seq<TimerItem<C>>, p: TimerItem<C> -> bool, x: TimerItem<C>)
    ensures x in Keep(l, p) <==> x in l && p(x)
  {
    if l != [] {
      assert l == [l[0]] + l[1..];
      KeepMember(l[1..], p, x);
    }
  }

  lemma KeepMembers<C(!new)>(l: seq<TimerItem<C>>, p: TimerItem<C> -> bool)
    ensures forall x :: x in Keep(l, p) <==> x in l && p(x)
  {
    forall x ensures x in Keep(l, p) <==> x in l && p(x) { KeepMember(l, p, x); }
  }

  /** With distinct ids an id names one entry. */
  lemma {:induction false} IdNamesOne<C(!new)>(l: seq<TimerItem<C>>, x: TimerItem<C>, y: TimerItem<C>)
    requires Distinct(l) && x in l && y in l && x.id == y.id
    ensures x == y && HasId(l, x.id) && Lookup(l, x.id) == x
  {
    assert l == [l[0]] + l[1..];
    var i :| 0 <= i < |l| && l[i] == x;
    if x != l[0] && y != l[0] { IdNamesOne(l[1..], x, y); }
  }

  lemma {:induction false} OthersDiffer<C(!new)>(l: seq<TimerItem<C>>, x: TimerItem<C>, y: TimerItem<C>)
    requires Distinct(l) && x in l && y in l && x != y
    ensures x.id != y.id && x.epoch != y.epoch
  {
    assert l == [l[0]] + l[1..];
    if x != l[0] && y != l[0] { OthersDiffer(l[1..], x, y); }
  }

  lemma LookupIsIn<C(!new)>(l: seq<TimerItem<C>>, id: int)
    requires HasId(l, id)
    ensures Lookup(l, id) in l && Lookup(l, id).id == id
  {
  }

  lemma {:induction false} EraseAbsent<C(!new)>(l: seq<TimerItem<C>>, id: int)
    requires !HasId(l, id)
    ensures Erase(l, id) == l
  {
    if l != [] {
      assert l == [l[0]] + l[1..];
      assert !HasId(l[1..], id) by { assert forall i :: 0 <= i < |l[1..]| ==> l[1..][i] == l[i + 1]; }
      EraseAbsent(l[1..], id);
    }
  }

  // ---------- order ----------

  /** The position of an entry in a sorted list is decided by Before. */
  lemma {:induction false} SortedAt<C(!new)>(l: seq<TimerItem<C>>, i: nat, j: nat)
    requires Sorted(l) && i < j < |l|
    ensures Before(l[i], l[j])
  {
    if i == 0 { assert l[j] == l[1..][j - 1]; } else { SortedAt(l[1..], i - 1, j - 1); }
  }

  lemma {:induction false} InsertSorted<C(!new)>(l: seq<TimerItem<C>>, t: TimerItem<C>)
    requires Sorted(l) && (forall x | x in l :: x.stamp < t.stamp)
    ensures Sorted(Insert(l, t))
  {
    if l != [] {
      assert l == [l[0]] + l[1..];
      var r := Insert(l, t);
      if l[0].nextCallTime > t.nextCallTime {
        assert r[1..] == l;
      } else {
        InsertSorted(l[1..], t);
        InsertMembers(l[1..], t);
        assert r[1..] == Insert(l[1..], t);
      }
    } else { assert Insert(l, t)[1..] == []; }
  }

  lemma {:induction false} InsertDistinct<C(!new)>(l: seq<TimerItem<C>>, t: TimerItem<C>)
    requires Distinct(l) && (forall x | x in l :: x.id != t.id && x.epoch != t.epoch)
    ensures Distinct(Insert(l, t))
  {
    if l != [] {
      assert l == [l[0]] + l[1..];
      var r := Insert(l, t);
      if l[0].nextCallTime > t.nextCallTime {
        assert r[1..] == l;
      } else {
        InsertDistinct(l[1..], t);
        InsertMembers(l[1..], t);
        assert r[1..] == Insert(l[1..], t);
      }
    } else { assert Insert(l, t)[1..] == []; }
  }

  lemma {:induction false} EraseOrdered<C(!new)>(l: seq<TimerItem<C>>, id: int)
    requires Sorted(l) && Distinct(l)
    ensures Sorted(Erase(l, id)) && Distinct(Erase(l, id))
  {
    if l != [] {
      assert l == [l[0]] + l[1..];
      if l[0].id != id {
        EraseOrdered(l[1..], id);
        EraseMembers(l[1..], id);
        assert Erase(l, id)[1..] == Erase(l[1..], id);
      }
    }
  }

  // ---------- Keep commutes with the edits ----------

  lemma {:induction false} KeepInsert<C(!new)>(l: seq<TimerItem<C>>, t: TimerItem<C>, p: TimerItem<C> -> bool)
    requires Sorted(l)
    ensures Keep(Insert(l, t), p) == if p(t) then Insert(Keep(l, p), t) else Keep(l, p)
  {
    if l != [] {
      assert l == [l[0]] + l[1..];
      if l[0].nextCallTime > t.nextCallTime {
        assert ([t] + l)[1..] == l;
        KeepMembers(l, p);
        var k := Keep(l, p);
        if k != [] { assert k[0] in k; }
      } else {
        KeepInsert(l[1..], t, p);
        assert Insert(l, t)[1..] == Insert(l[1..], t);
        if p(l[0]) { assert Keep(l, p)[1..] == Keep(l[1..], p); }
      }
    } else { assert Insert(l, t)[1..] == []; }
  }

  lemma {:induction false} KeepErase<C(!new)>(l: seq<TimerItem<C>>, id: int, p: TimerItem<C> -> bool)
    requires Distinct(l)
    ensures Keep(Erase(l, id), p) == Erase(Keep(l, p), id)
  {
    if l != [] {
      assert l == [l[0]] + l[1..];
      if l[0].id == id {
        KeepMembers(l[1..], p);
        if p(l[0]) {
          assert Keep(l, p)[1..] == Keep(l[1..], p);
        } else if HasId(Keep(l[1..], p), id) {
          var k := Lookup(Keep(l[1..], p), id);
          LookupIsIn(Keep(l[1..], p), id);
          assert false;
        } else {
          EraseAbsent(Keep(l[1..], p), id);
        }
      } else {
        KeepErase(l[1..], id, p);
        assert Erase(l, id)[1..] == Erase(l[1..], id);
        if p(l[0]) { assert Keep(l, p)[1..] == Keep(l[1..], p); }
      }
    }
  }

  lemma {:induction false} KeepNone<C(!new)>(l: seq<TimerItem<C>>, p: TimerItem<C> -> bool)
    requires forall t | t in l :: !p(t)
    ensures Keep(l, p) == []
  {
    if l != [] { assert l == [l[0]] + l[1..]; KeepNone(l[1..], p); }
  }

  lemma {:induction false} KeepSame<C(!new)>(l: seq<TimerItem<C>>, p: TimerItem<C> -> bool, q: TimerItem<C> -> bool)
    requires forall t | t in l :: p(t) == q(t)
    ensures Keep(l, p) == Keep(l, q)
  {
    if l != [] { assert l == [l[0]] + l[1..]; KeepSame(l[1..], p, q); }
  }

  lemma {:induction false} KeepKeep<C(!new)>(l: seq<TimerItem<C>>, p: TimerItem<C> -> bool, q: TimerItem<C> -> bool)
    ensures Keep(Keep(l, p), q) == Keep(l, (t: TimerItem<C>) => p(t) && q(t))
  {
    if l != [] {
      KeepKeep(l[1..], p, q);
      if p(l[0]) { assert Keep(l, p)[1..] == Keep(l[1..], p); }
    }
  }

  lemma {:induction false} KeepOrdered<C(!new)>(l: seq<TimerItem<C>>, p: TimerItem<C> -> bool)
    requires Sorted(l) && Distinct(l)
    ensures Sorted(Keep(l, p)) && Distinct(Keep(l, p))
  {
    if l != [] {
      KeepOrdered(l[1..], p);
      KeepMembers(l[1..], p);
      if p(l[0]) { assert Keep(l, p)[1..] == Keep(l[1..], p); }
    }
  }

  /** Erasing an id is keeping the other ids. */
  lemma {:induction false} EraseIsKeep<C(!new)>(l: seq<TimerItem<C>>, id: int)
    requires Distinct(l)
    ensures Erase(l, id) == Keep(l, (t: TimerItem<C>) => t.id != id)
  {
    var p := (t: TimerItem<C>) => t.id != id;
    if l != [] {
      assert l == [l[0]] + l[1..];
      if l[0].id == id {
        KeepAll(l[1..], p);
      } else {
        EraseIsKeep(l[1..], id);
      }
    }
  }

  lemma {:induction false} KeepAll<C(!new)>(l: seq<TimerItem<C>>, p: TimerItem<C> -> bool)
    requires forall t | t in l :: p(t)
    ensures Keep(l, p) == l
  {
    if l != [] { assert l == [l[0]] + l[1..]; KeepAll(l[1..], p); }
  }

  lemma {:induction false} InsertLast<C(!new)>(l: seq<TimerItem<C>>, t: TimerItem<C>)
    requires forall x | x in l :: x.nextCallTime <= t.nextCallTime
    ensures Insert(l, t) == l + [t]
  {
    if l != [] {
      assert l == [l[0]] + l[1..];
      assert l[0] in l;
      InsertLast(l[1..], t);
    }
  }
}
