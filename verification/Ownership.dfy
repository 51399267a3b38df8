/** Who owns a timer, and what one owner's operations leave untouched for the others.

    The key commands, the subscribers and other components arm their timers on one list and keep
    the ids, which the timer manager hands out again as soon as they are free.  What a timer's
    callback does says whom it belongs to.  Only states that an operation has changed the list
    for one owner alone, and the lemmas show it of arming, removing and firing. */
module Ownership {
  import opened KeyTypes
  import opened TimerList
  import opened Timers

  type Item = TimerItem<Callback>
  type Timetable = Sched<Callback>

  datatype Owner = ShortcutOwner | SequenceOwner | DelayOwner | SubscriberOwner | OtherOwner

  function OwnerOf(t: Item): Owner {
    match t.callback
    case LaunchShortcut(_) => ShortcutOwner
    case LaunchSequence(_) => SequenceOwner
    case DelayedKey(_) => DelayOwner
    case Notify(_, _, _) => SubscriberOwner
    case Other(_) => OtherOwner
  }

  function NotOf(o: Owner): Item -> bool { (t: Item) => OwnerOf(t) != o }

  /** From `s` to `r` only timers of `o` came or went; the others keep their entries and order. */
  ghost predicate Only(s: Timetable, r: Timetable, o: Owner) {
    Inv(r) && r.clock >= s.clock && Keep(r.items, NotOf(o)) == Keep(s.items, NotOf(o))
  }

  lemma OnlyTrans(s: Timetable, r: Timetable, u: Timetable, o: Owner)
    requires Only(s, r, o) && Only(r, u, o)
    ensures Only(s, u, o)
  {
  }

  /** A selection of other owners' timers is unchanged. */
  lemma OnlyKeeps(s: Timetable, r: Timetable, o: Owner, p: Item -> bool)
    requires Only(s, r, o) && forall t :: p(t) ==> OwnerOf(t) != o
    ensures Keep(r.items, p) == Keep(s.items, p)
  {
    var both := (t: Item) => NotOf(o)(t) && p(t);
    KeepKeep(r.items, NotOf(o), p);
    KeepKeep(s.items, NotOf(o), p);
    KeepSame(r.items, both, p);
    KeepSame(s.items, both, p);
  }

  /** The entry AddTimer makes. */
  function NewItem(s: Timetable, interval: int, cb: Callback, tick: nat): Item {
    TimerItem(FreeId(s.items), Clamp(interval), 1, 0, s.clock + tick + Clamp(interval), cb, |s.armed|, s.serial)
  }

  function Sum(ticks: seq<nat>, i: nat): nat
    decreases |ticks| - i
  {
    if i >= |ticks| then 0 else ticks[i] + Sum(ticks, i + 1)
  }

  /** There are ids for `n` more timers, and no deadline set from here on overflows. */
  predicate Room(s: Timetable, n: nat, ticks: seq<nat>, i: nat) {
    |s.items| + n <= MAX_TIMER_COUNT && s.clock + Sum(ticks, i) + MAX_INTERVAL <= INT64_MAX
  }

  /** Arming a one-shot timer adds one entry under an id not in use, or nothing. */
  lemma AddOnly(s: Timetable, interval: int, cb: Callback, tick: nat)
    requires Inv(s)
    ensures var (r, id) := Add(s, interval, 1, cb, tick);
            var t := NewItem(s, interval, cb, tick);
            && Only(s, r, OwnerOf(t))
            && (id < 0 ==> id == -1 && r.items == s.items)
            && (id >= 0 ==> id == t.id && r.items == Insert(s.items, t) && !HasId(s.items, id))
  {
    var (r, id) := Add(s, interval, 1, cb, tick);
    var t := NewItem(s, interval, cb, tick);
    AddKeepsInv(s, interval, 1, cb, tick);
    KeepInsert(s.items, t, NotOf(OwnerOf(t)));
  }

  lemma AddKeep(s: Timetable, interval: int, cb: Callback, tick: nat, p: Item -> bool)
    requires Inv(s)
    ensures var (r, id) := Add(s, interval, 1, cb, tick);
            var t := NewItem(s, interval, cb, tick);
            Keep(r.items, p) == if id >= 0 && p(t) then Insert(Keep(s.items, p), t) else Keep(s.items, p)
  {
    KeepInsert(s.items, NewItem(s, interval, cb, tick), p);
  }

  /** Removing a timer of `o`, or an id not in use. */
  lemma RemoveOnly(s: Timetable, id: int, o: Owner)
    requires Inv(s) && (HasId(s.items, id) ==> OwnerOf(Lookup(s.items, id)) == o)
    ensures Only(s, Remove(s, id), o)
    ensures Remove(s, id).items == Erase(s.items, id)
  {
    RemoveKeepsInv(s, id);
    KeepErase(s.items, id, NotOf(o));
    if HasId(s.items, id) {
      LookupIsIn(s.items, id);
      KeepMembers(s.items, NotOf(o));
      if HasId(Keep(s.items, NotOf(o)), id) {
        var x := Lookup(Keep(s.items, NotOf(o)), id);
        LookupIsIn(Keep(s.items, NotOf(o)), id);
        IdNamesOne(s.items, x, Lookup(s.items, id));
        assert false;
      }
      EraseAbsent(Keep(s.items, NotOf(o)), id);
    } else {
      EraseAbsent(s.items, id);
    }
  }

  lemma RemoveKeep(s: Timetable, id: int, p: Item -> bool)
    requires Inv(s)
    ensures Keep(Remove(s, id).items, p) == Erase(Keep(s.items, p), id)
  {
    KeepErase(s.items, id, p);
    if !HasId(s.items, id) { EraseAbsent(s.items, id); }
  }

  /** Firing the head touches no timer of another owner. */
  lemma FireOnly(s: Timetable, now: int)
    requires Inv(s) && s.items != [] && now <= s.clock
    ensures Only(s, FireHead(s, now), OwnerOf(s.items[0]))
  {
    FireKeepsInv(s, now);
    FireSkips(s, now, NotOf(OwnerOf(s.items[0])));
  }

  lemma FireSkips(s: Timetable, now: int, p: Item -> bool)
    requires Sorted(s.items) && s.items != []
    requires forall t :: p(t) ==> OwnerOf(t) != OwnerOf(s.items[0])
    ensures Keep(FireHead(s, now).items, p) == Keep(s.items, p)
  {
    var t := s.items[0];
    KeepInsert(s.items[1..],
      t.(callbackCount := t.callbackCount + 1, nextCallTime := now + t.interval, stamp := s.serial), p);
  }

  /** A one-shot timer is off the list when its callback runs. */
  lemma OneShotFires(s: Timetable, now: int)
    requires Inv(s) && s.items != [] && s.items[0].repeatCount == 1
    ensures FireHead(s, now).items == s.items[1..]
  {
    assert s.items[0] in s.items && ItemOk(s, s.items[0]);
  }

  /** A live id selected by `p` names the entry found among the selected ones. */
  lemma SelectedById(s: Timetable, p: Item -> bool, t: Item)
    requires Inv(s) && t in Keep(s.items, p)
    ensures t in s.items && p(t) && HasId(s.items, t.id) && Lookup(s.items, t.id) == t
  {
    KeepMembers(s.items, p);
    IdNamesOne(s.items, t, t);
  }

  /** Removing a timer leaves every selection without it as it was. */
  lemma RemoveOther(s: Timetable, t: Item, p: Item -> bool)
    requires Inv(s) && t in s.items && !p(t)
    ensures Keep(Remove(s, t.id).items, p) == Keep(s.items, p)
  {
    var k := Keep(s.items, p);
    RemoveKeep(s, t.id, p);
    KeepMembers(s.items, p);
    if HasId(k, t.id) {
      LookupIsIn(k, t.id);
      IdNamesOne(s.items, Lookup(k, t.id), t);
      assert false;
    }
    EraseAbsent(k, t.id);
  }
}
