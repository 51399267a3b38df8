/** The behaviour of TimerManager as functions on its state, and what holds in every run. */
module Timers {
  import opened TimerList
  import opened FiniteSets

  /** The manager's state.  `items` is the program's list.  The rest records the run:
      `clock` is the latest clock reading, `serial` the number of insertions, `armed` the
      repeat count given at each arming (AddTimer or ResetTimer), `fired` the epochs of the
      callbacks run so far, `ended` the epochs taken off the list by RemoveTimer,
      ResetTimer or an overflow. */
  datatype Sched<C> = Sched(
    items: seq<TimerItem<C>>, clock: int, serial: nat,
    armed: seq<int>, fired: seq<nat>, ended: set<nat>)

  function Initial<C(!new)>(clock: int): Sched<C> { Sched([], clock, 0, [], [], {}) }

  function Clamp(interval: int): (r: int)
    ensures MIN_INTERVAL <= r <= MAX_INTERVAL
  {
    if interval < MIN_INTERVAL then MIN_INTERVAL
    else if interval > MAX_INTERVAL then MAX_INTERVAL
    else interval
  }

  /** AddInt64 fails for a positive second operand exactly when the sum leaves the int64 range. */
  predicate Overflows(now: int, interval: int) { now + interval > INT64_MAX }

  /** `i` is the least id that no entry uses. */
  predicate LeastFree<C(!new)>(l: seq<TimerItem<C>>, i: int) {
    0 <= i < MAX_TIMER_COUNT && !HasId(l, i) && forall k | 0 <= k < i :: HasId(l, k)
  }

  lemma {:induction false} FreeBelow<C(!new)>(l: seq<TimerItem<C>>, n: nat)
    requires n < MAX_TIMER_COUNT && !HasId(l, n)
    ensures exists i :: LeastFree(l, i)
  {
    if k :| 0 <= k < n && !HasId(l, k) { FreeBelow(l, k); } else { assert LeastFree(l, n); }
  }

  /** TakeNextTimerId: the least unused id, or NONEXISTENT_ID when all are in use. */
  function FreeId<C(!new)>(l: seq<TimerItem<C>>): (r: int)
    ensures r == NONEXISTENT_ID || LeastFree(l, r)
    ensures r == NONEXISTENT_ID <==> forall k | 0 <= k < MAX_TIMER_COUNT :: HasId(l, k)
  {
    if i: int :| 0 <= i < MAX_TIMER_COUNT && LeastFree(l, i) then i
    else
      AllInUse(l);
      NONEXISTENT_ID
  }

  lemma AllInUse<C(!new)>(l: seq<TimerItem<C>>)
    requires forall i :: !LeastFree(l, i)
    ensures forall k | 0 <= k < MAX_TIMER_COUNT :: HasId(l, k)
  {
    forall k | 0 <= k < MAX_TIMER_COUNT ensures HasId(l, k) { if !HasId(l, k) { FreeBelow(l, k); assert false; } }
  }

  function Add<C(!new)>(s: Sched<C>, interval: int, repeatCount: int, callback: C, tick: nat): (Sched<C>, int) {
    var id := FreeId(s.items);
    if id < 0 then (s, NONEXISTENT_ID) else
    var now := s.clock + tick;
    if Overflows(now, Clamp(interval)) then (s.(clock := now), NONEXISTENT_ID) else
    var t := TimerItem(id, Clamp(interval), repeatCount, 0, now + Clamp(interval), callback, |s.armed|, s.serial);
    (s.(items := Insert(s.items, t), clock := now, serial := s.serial + 1, armed := s.armed + [repeatCount]), id)
  }

  function Remove<C(!new)>(s: Sched<C>, id: int): Sched<C> {
    if !HasId(s.items, id) then s
    else s.(items := Erase(s.items, id), ended := s.ended + {Lookup(s.items, id).epoch})
  }

  function Reset<C(!new)>(s: Sched<C>, id: int, tick: nat): Sched<C> {
    if !HasId(s.items, id) then s else
    var t := Lookup(s.items, id);
    var now := s.clock + tick;
    var rest := Erase(s.items, id);
    if Overflows(now, t.interval) then s.(items := rest, clock := now, ended := s.ended + {t.epoch}) else
    var u := t.(nextCallTime := now + t.interval, callbackCount := 0, epoch := |s.armed|, stamp := s.serial);
    s.(items := Insert(rest, u), clock := now, serial := s.serial + 1,
       armed := s.armed + [t.repeatCount], ended := s.ended + {t.epoch})
  }

  /** The entry leaves the list for good at its next firing. */
  predicate LastFiring<C(!new)>(t: TimerItem<C>) { t.repeatCount >= 1 && t.callbackCount + 1 >= t.repeatCount }

  /** The drain loop gives up on this entry: it repeats and its next deadline overflows. */
  predicate Stuck<C(!new)>(t: TimerItem<C>, now: int) { !LastFiring(t) && Overflows(now, t.interval) }

  /** One turn of the drain loop up to the callback: take the head, count the firing, and
      put a repeating timer back.  A stuck head is dropped unfired. */
  function FireHead<C(!new)>(s: Sched<C>, now: int): Sched<C>
    requires s.items != []
  {
    var t := s.items[0];
    if Stuck(t, now) then s.(items := s.items[1..], ended := s.ended + {t.epoch})
    else if LastFiring(t) then s.(items := s.items[1..], fired := s.fired + [t.epoch])
    else
      var u := t.(callbackCount := t.callbackCount + 1, nextCallTime := now + t.interval, stamp := s.serial);
      s.(items := Insert(s.items[1..], u), serial := s.serial + 1, fired := s.fired + [t.epoch])
  }

  // ---------- invariant of every run ----------

  ghost predicate ItemOk<C(!new)>(s: Sched<C>, t: TimerItem<C>) {
    && 0 <= t.id < MAX_TIMER_COUNT
    && MIN_INTERVAL <= t.interval <= MAX_INTERVAL
    && t.nextCallTime <= s.clock + t.interval
    && t.stamp < s.serial
    && t.epoch < |s.armed| && t.epoch !in s.ended
    && s.armed[t.epoch] == t.repeatCount
    && multiset(s.fired)[t.epoch] == t.callbackCount
    && (t.repeatCount >= 1 ==> t.callbackCount < t.repeatCount)
  }

  ghost predicate Live<C(!new)>(s: Sched<C>, e: nat) { exists t :: t in s.items && t.epoch == e }

  /** Every arming is accounted for: on the list, ended, or fired as often as asked. */
  ghost predicate EpochOk<C(!new)>(s: Sched<C>, e: nat)
    requires e < |s.armed|
  {
    && (Live(s, e) || e in s.ended || (s.armed[e] >= 1 && multiset(s.fired)[e] == s.armed[e]))
    && (e in s.ended && s.armed[e] >= 1 ==> multiset(s.fired)[e] < s.armed[e])
  }

  ghost predicate Inv<C(!new)>(s: Sched<C>) {
    && Sorted(s.items) && Distinct(s.items)
    && (forall t | t in s.items :: ItemOk(s, t))
    && (forall e: nat | e < |s.armed| :: EpochOk(s, e))
    && (forall e | e in s.fired :: e < |s.armed|)
    && (forall e | e in s.ended :: e < |s.armed|)
  }

  lemma TickKeepsInv<C(!new)>(s: Sched<C>, now: int)
    requires Inv(s) && now >= s.clock
    ensures Inv(s.(clock := now))
  {
    var r := s.(clock := now);
    forall e: nat | e < |s.armed| ensures EpochOk(r, e) { assert EpochOk(s, e) && Live(s, e) == Live(r, e); }
    forall t | t in s.items ensures ItemOk(r, t) { assert ItemOk(s, t); }
  }

  lemma UnusedId<C(!new)>(l: seq<TimerItem<C>>, id: int)
    requires !HasId(l, id)
    ensures forall x | x in l :: x.id != id
  {
    forall x | x in l ensures x.id != id { var i :| 0 <= i < |l| && l[i] == x; }
  }

  lemma AddKeepsInv<C(!new)>(s: Sched<C>, interval: int, repeatCount: int, callback: C, tick: nat)
    requires Inv(s)
    ensures Inv(Add(s, interval, repeatCount, callback, tick).0)
  {
    var (r, id) := Add(s, interval, repeatCount, callback, tick);
    var mid := s.(clock := r.clock);
    TickKeepsInv(s, mid.clock);
    if id >= 0 {
      var t := TimerItem(id, Clamp(interval), repeatCount, 0, mid.clock + Clamp(interval), callback, |s.armed|, s.serial);
      UnusedId(s.items, id);
      ArmedKeepsInv(mid, t);
      assert r == Armed(mid, t);
    }
  }

  lemma RemoveKeepsInv<C(!new)>(s: Sched<C>, id: int)
    requires Inv(s)
    ensures Inv(Remove(s, id))
  {
    if HasId(s.items, id) {
      var r := Remove(s, id);
      LookupIsIn(s.items, id);
      DroppedKeepsInv(s, Lookup(s.items, id), r);
    }
  }

  /** Taking an entry off the list before its last firing. */
  lemma DroppedKeepsInv<C(!new)>(s: Sched<C>, t: TimerItem<C>, r: Sched<C>)
    requires Inv(s) && t in s.items && r.clock >= s.clock
    requires r == s.(items := Erase(s.items, t.id), clock := r.clock, ended := s.ended + {t.epoch})
    ensures Inv(r)
  {
    EraseMembers(s.items, t.id);
    EraseOrdered(s.items, t.id);
    forall x | x in r.items ensures ItemOk(r, x) {
      OthersDiffer(s.items, x, t);
    }
    forall e: nat | e < |r.armed| ensures EpochOk(r, e) {
      assert EpochOk(s, e);
      if Live(s, e) && e != t.epoch {
        var x :| x in s.items && x.epoch == e;
        if x.id == t.id { IdNamesOne(s.items, x, t); }
        assert x in r.items;
      }
    }
  }

  lemma ResetKeepsInv<C(!new)>(s: Sched<C>, id: int, tick: nat)
    requires Inv(s)
    ensures Inv(Reset(s, id, tick))
  {
    if HasId(s.items, id) {
      var t := Lookup(s.items, id);
      LookupIsIn(s.items, id);
      var mid := s.(items := Erase(s.items, id), clock := s.clock + tick, ended := s.ended + {t.epoch});
      DroppedKeepsInv(s, t, mid);
      if !Overflows(mid.clock, t.interval) {
        var u := t.(nextCallTime := mid.clock + t.interval, callbackCount := 0, epoch := |s.armed|, stamp := s.serial);
        EraseMembers(s.items, id);
        ArmedKeepsInv(mid, u);
        assert Reset(s, id, tick) == Armed(mid, u);
      }
    }
  }

  function Armed<C(!new)>(s: Sched<C>, t: TimerItem<C>): Sched<C> {
    s.(items := Insert(s.items, t), serial := s.serial + 1, armed := s.armed + [t.repeatCount])
  }

  /** Putting a freshly armed entry on the list. */
  lemma ArmedKeepsInv<C(!new)>(s: Sched<C>, t: TimerItem<C>)
    requires Inv(s)
    requires 0 <= t.id < MAX_TIMER_COUNT && MIN_INTERVAL <= t.interval <= MAX_INTERVAL
    requires t.nextCallTime == s.clock + t.interval && t.stamp == s.serial
    requires t.epoch == |s.armed| && t.callbackCount == 0
    requires forall x | x in s.items :: x.id != t.id
    ensures Inv(Armed(s, t))
  {
    var r := Armed(s, t);
    InsertMembers(s.items, t);
    forall x | x in s.items ensures ItemOk(s, x) {}
    InsertSorted(s.items, t);
    InsertDistinct(s.items, t);
    assert t.epoch !in s.fired;
    assert multiset(s.fired)[t.epoch] == 0;
    forall x | x in r.items ensures ItemOk(r, x) {}
    assert t in r.items;
    forall e: nat | e < |r.armed| ensures EpochOk(r, e) {
      if e < |s.armed| {
        assert EpochOk(s, e);
        if Live(s, e) { var x :| x in s.items && x.epoch == e; assert x in r.items; }
      }
    }
  }

  /** Recording a firing of `t`, which is on the list of `s` but not among `rest`. */
  lemma FiredOthersOk<C(!new)>(s: Sched<C>, t: TimerItem<C>, rest: seq<TimerItem<C>>, r: Sched<C>)
    requires Inv(s) && s.items == [t] + rest
    requires r.fired == s.fired + [t.epoch] && r.armed == s.armed && r.ended == s.ended
    requires r.clock == s.clock && r.serial >= s.serial
    ensures multiset(r.fired) == multiset(s.fired) + multiset{t.epoch}
    ensures Sorted(rest) && Distinct(rest)
    ensures forall x | x in rest :: x in s.items && x.epoch != t.epoch && x.id != t.id && ItemOk(s, x) && ItemOk(r, x)
    ensures forall e | e in r.fired :: e < |r.armed|
  {
    assert s.items[1..] == rest && t in s.items && ItemOk(s, t);
    forall x | x in rest
      ensures x in s.items && x.epoch != t.epoch && x.id != t.id && ItemOk(s, x) && ItemOk(r, x)
    {
      assert x in s.items && ItemOk(s, x);
      assert x.id != t.id;
    }
  }

  lemma LastFireKeepsInv<C(!new)>(s: Sched<C>, t: TimerItem<C>, rest: seq<TimerItem<C>>)
    requires Inv(s) && s.items == [t] + rest && LastFiring(t)
    ensures Inv(s.(items := rest, fired := s.fired + [t.epoch]))
  {
    var r := s.(items := rest, fired := s.fired + [t.epoch]);
    FiredOthersOk(s, t, rest, r);
    assert t in s.items && ItemOk(s, t);
    EpochsAfterFiring(s, t, rest, r);
  }

  /** The accounts after a firing of `t`: the other armings are as before. */
  lemma EpochsAfterFiring<C(!new)>(s: Sched<C>, t: TimerItem<C>, rest: seq<TimerItem<C>>, r: Sched<C>)
    requires Inv(s) && s.items == [t] + rest && (forall x | x in rest :: x in r.items)
    requires r.armed == s.armed && r.ended == s.ended && multiset(r.fired) == multiset(s.fired) + multiset{t.epoch}
    requires if LastFiring(t) then r.items == rest else Live(r, t.epoch)
    ensures forall e: nat | e < |r.armed| :: EpochOk(r, e)
  {
    assert t in s.items && ItemOk(s, t);
    forall e: nat | e < |r.armed| ensures EpochOk(r, e) {
      assert EpochOk(s, e);
      if Live(s, e) && e != t.epoch { var x :| x in s.items && x.epoch == e; assert x in r.items; }
    }
  }

  lemma RepeatFireKeepsInv<C(!new)>(s: Sched<C>, t: TimerItem<C>, rest: seq<TimerItem<C>>, now: int)
    requires Inv(s) && s.items == [t] + rest && !LastFiring(t) && now <= s.clock
    ensures var u := t.(callbackCount := t.callbackCount + 1, nextCallTime := now + t.interval, stamp := s.serial);
            Inv(s.(items := Insert(rest, u), serial := s.serial + 1, fired := s.fired + [t.epoch]))
  {
    var u := t.(callbackCount := t.callbackCount + 1, nextCallTime := now + t.interval, stamp := s.serial);
    var r := s.(items := Insert(rest, u), serial := s.serial + 1, fired := s.fired + [t.epoch]);
    FiredOthersOk(s, t, rest, r);
    assert t in s.items && ItemOk(s, t);
    InsertMembers(rest, u);
    InsertSorted(rest, u);
    InsertDistinct(rest, u);
    assert ItemOk(r, u) && u in r.items;
    EpochsAfterFiring(s, t, rest, r);
  }

  lemma FireKeepsInv<C(!new)>(s: Sched<C>, now: int)
    requires Inv(s) && s.items != [] && now <= s.clock
    ensures Inv(FireHead(s, now))
  {
    var t := s.items[0];
    assert s.items == [t] + s.items[1..] && t in s.items;
    if Stuck(t, now) {
      DroppedKeepsInv(s, t, FireHead(s, now));
    } else if LastFiring(t) {
      LastFireKeepsInv(s, t, s.items[1..]);
    } else {
      RepeatFireKeepsInv(s, t, s.items[1..], now);
    }
  }

  // ---------- what each operation does to the list ----------

  /** `t` was put on the list: the others stay, and of those not later none comes after it. */
  ghost predicate PutOn<C(!new)>(before: seq<TimerItem<C>>, after: seq<TimerItem<C>>, t: TimerItem<C>) {
    && t !in before && (forall x :: x in after <==> x == t || x in before)
    && forall x | x in before && x.nextCallTime <= t.nextCallTime :: Before(x, t)
  }

  lemma InsertEnters<C(!new)>(l: seq<TimerItem<C>>, t: TimerItem<C>)
    requires forall x | x in l :: x.stamp < t.stamp
    ensures PutOn(l, Insert(l, t), t)
  {
    InsertMembers(l, t);
  }

  /** AddTimer fails, changing nothing, exactly when 64 timers are pending or the deadline
      overflows; otherwise one timer is new, under an id not in use, due the clamped interval
      after the clock reading and behind every timer due by then. */
  lemma AddMeans<C(!new)>(s: Sched<C>, interval: int, repeatCount: int, callback: C, tick: nat)
    requires Inv(s)
    ensures var (r, id) := Add(s, interval, repeatCount, callback, tick);
            var due := s.clock + tick + Clamp(interval);
            && (id < 0 <==> |s.items| == 64 || due > INT64_MAX)
            && (id < 0 ==> r.items == s.items)
            && (id >= 0 ==> !HasId(s.items, id) && exists t ::
                  && PutOn(s.items, r.items, t) && t.id == id && t.nextCallTime == due == s.clock + tick + t.interval
                  && t.interval == (if interval < 50 then 50 else if interval > 4096 then 4096 else interval)
                  && t.repeatCount == repeatCount && t.callbackCount == 0 && t.callback == callback)
  {
    var (r, id) := Add(s, interval, repeatCount, callback, tick);
    OrderedIds(s);
    if id >= 0 {
      var t := TimerItem(id, Clamp(interval), repeatCount, 0, s.clock + tick + Clamp(interval), callback, |s.armed|, s.serial);
      forall x | x in s.items ensures x.stamp < t.stamp { assert ItemOk(s, x); }
      InsertEnters(s.items, t);
    }
  }

  /** ResetTimer takes the timer of that id off the list and, unless its deadline overflows,
      puts it back as if just added with the same interval, repeat count and callback. */
  lemma ResetMeans<C(!new)>(s: Sched<C>, id: int, tick: nat, t: TimerItem<C>)
    requires Inv(s) && t in s.items && t.id == id
    ensures var r := Reset(s, id, tick);
            var due := s.clock + tick + t.interval;
            var rest := Erase(s.items, id);
            && (forall x :: x in rest <==> x in s.items && x != t)
            && (due > INT64_MAX ==> r.items == rest)
            && (due <= INT64_MAX ==> exists u ::
                  && PutOn(rest, r.items, u) && u.id == id && u.nextCallTime == due && u.interval == t.interval
                  && u.repeatCount == t.repeatCount && u.callbackCount == 0 && u.callback == t.callback)
  {
    IdNamesOne(s.items, t, t);
    EraseMembers(s.items, id);
    var rest := Erase(s.items, id);
    forall x ensures x in rest <==> x in s.items && x != t {
      if x in s.items && x.id == id { IdNamesOne(s.items, x, t); }
    }
    var u := t.(nextCallTime := s.clock + tick + t.interval, callbackCount := 0, epoch := |s.armed|, stamp := s.serial);
    forall x | x in rest ensures x.stamp < u.stamp { assert ItemOk(s, x); }
    InsertEnters(rest, u);
  }

  /** RemoveTimer and ResetTimer of an id not in use change nothing; RemoveTimer takes exactly
      the timer of that id off the list. */
  lemma RemoveMeans<C(!new)>(s: Sched<C>, id: int, tick: nat)
    requires Inv(s)
    ensures forall x :: x in Remove(s, id).items <==> x in s.items && x.id != id
    ensures !HasId(s.items, id) ==> Remove(s, id) == s && Reset(s, id, tick) == s
  {
    EraseMembers(s.items, id);
    if !HasId(s.items, id) { UnusedId(s.items, id); }
  }

  /** Firing takes the head off the list; one with firings left, or repeating for ever, goes back
      one interval after the pass began, behind every timer due by then. */
  lemma FireMeans<C(!new)>(s: Sched<C>, now: int)
    requires Inv(s) && s.items != [] && !Stuck(s.items[0], now)
    ensures var t := s.items[0];
            var rest := s.items[1..];
            var r := FireHead(s, now);
            && r.fired == s.fired + [t.epoch]
            && (t.callbackCount + 1 == t.repeatCount ==> r.items == rest)
            && (t.callbackCount + 1 != t.repeatCount ==> exists u ::
                  && PutOn(rest, r.items, u) && u.nextCallTime == now + t.interval && u.callbackCount == t.callbackCount + 1
                  && u.id == t.id && u.interval == t.interval && u.repeatCount == t.repeatCount && u.callback == t.callback)
  {
    var t := s.items[0];
    var rest := s.items[1..];
    assert s.items == [t] + rest && t in s.items && ItemOk(s, t);
    var u := t.(callbackCount := t.callbackCount + 1, nextCallTime := now + t.interval, stamp := s.serial);
    forall x | x in rest ensures x.stamp < u.stamp { assert x in s.items && ItemOk(s, x); }
    InsertEnters(rest, u);
  }

  // ---------- a pass of ProcessTimers ----------

  /** What a callback may ask of the manager.  Each `tick` is how far the clock moved before
      the call read it. */
  datatype Call<C> =
    | CallAdd(interval: int, repeatCount: int, callback: C, tick: nat)
    | CallRemove(id: int)
    | CallReset(id: int, tick: nat)

  function Apply<C(!new)>(s: Sched<C>, c: Call<C>): Sched<C> {
    match c
    case CallAdd(interval, repeatCount, callback, tick) => Add(s, interval, repeatCount, callback, tick).0
    case CallRemove(id) => Remove(s, id)
    case CallReset(id, tick) => Reset(s, id, tick)
  }

  function ApplyAll<C(!new)>(s: Sched<C>, cs: seq<Call<C>>): Sched<C>
    decreases |cs|
  {
    if cs == [] then s else ApplyAll(Apply(s, cs[0]), cs[1..])
  }

  lemma ApplyKeepsInv<C(!new)>(s: Sched<C>, c: Call<C>)
    requires Inv(s)
    ensures Inv(Apply(s, c)) && Apply(s, c).clock >= s.clock && Apply(s, c).fired == s.fired
  {
    match c
    case CallAdd(interval, repeatCount, callback, tick) => AddKeepsInv(s, interval, repeatCount, callback, tick);
    case CallRemove(id) => RemoveKeepsInv(s, id);
    case CallReset(id, tick) => ResetKeepsInv(s, id, tick);
  }

  lemma {:induction false} ApplyAllKeepsInv<C(!new)>(s: Sched<C>, cs: seq<Call<C>>)
    requires Inv(s)
    ensures Inv(ApplyAll(s, cs)) && ApplyAll(s, cs).clock >= s.clock && ApplyAll(s, cs).fired == s.fired
    decreases |cs|
  {
    if cs != [] { ApplyKeepsInv(s, cs[0]); ApplyAllKeepsInv(Apply(s, cs[0]), cs[1..]); }
  }

  /** The ids a callback removes or resets. */
  function Touched<C(!new)>(cs: seq<Call<C>>): set<int> {
    if cs == [] then {} else (if cs[0].CallAdd? then {} else {cs[0].id}) + Touched(cs[1..])
  }

  function DueBy<C(!new)>(now: int): TimerItem<C> -> bool { (t: TimerItem<C>) => t.nextCallTime <= now }
  function NotIn<C(!new)>(ids: set<int>): TimerItem<C> -> bool { (t: TimerItem<C>) => t.id !in ids }

  function Due<C(!new)>(s: Sched<C>, now: int): seq<TimerItem<C>> { Keep(s.items, DueBy(now)) }

  lemma AddDue<C(!new)>(s: Sched<C>, interval: int, repeatCount: int, callback: C, tick: nat, now: int)
    requires Sorted(s.items) && now <= s.clock
    ensures Due(Add(s, interval, repeatCount, callback, tick).0, now) == Due(s, now)
  {
    var id := FreeId(s.items);
    var t0 := s.clock + tick;
    KeepInsert(s.items,
      TimerItem(id, Clamp(interval), repeatCount, 0, t0 + Clamp(interval), callback, |s.armed|, s.serial), DueBy(now));
  }

  lemma EraseDue<C(!new)>(l: seq<TimerItem<C>>, id: int, now: int)
    requires Sorted(l) && Distinct(l)
    ensures Keep(Erase(l, id), DueBy(now)) == Keep(Keep(l, DueBy(now)), NotIn({id}))
  {
    var due := Keep(l, DueBy(now));
    KeepErase(l, id, DueBy(now));
    KeepOrdered(l, DueBy(now));
    EraseIsKeep(due, id);
    KeepSame(due, NotIn({id}), (t: TimerItem<C>) => t.id != id);
  }

  lemma ResetDue<C(!new)>(s: Sched<C>, id: int, tick: nat, now: int)
    requires Inv(s) && now <= s.clock
    ensures Due(Reset(s, id, tick), now) == Keep(Erase(s.items, id), DueBy(now))
  {
    if !HasId(s.items, id) {
      EraseAbsent(s.items, id);
    } else {
      var t := Lookup(s.items, id);
      LookupIsIn(s.items, id);
      assert ItemOk(s, t);
      EraseOrdered(s.items, id);
      KeepInsert(Erase(s.items, id),
        t.(nextCallTime := s.clock + tick + t.interval, callbackCount := 0, epoch := |s.armed|, stamp := s.serial), DueBy(now));
    }
  }

  /** A call made at or after `now` adds nothing that is due by `now`, and takes away
      exactly the entries it names. */
  lemma ApplyDue<C(!new)>(s: Sched<C>, c: Call<C>, now: int)
    requires Inv(s) && now <= s.clock
    ensures Due(Apply(s, c), now) == Keep(Due(s, now), NotIn(if c.CallAdd? then {} else {c.id}))
  {
    match c
    case CallAdd(interval, repeatCount, callback, tick) =>
      AddDue(s, interval, repeatCount, callback, tick, now);
      KeepAll(Due(s, now), NotIn({}));
    case CallRemove(id) =>
      EraseDue(s.items, id, now);
      if !HasId(s.items, id) { EraseAbsent(s.items, id); }
    case CallReset(id, tick) =>
      EraseDue(s.items, id, now);
      ResetDue(s, id, tick, now);
  }

  lemma {:induction false} ApplyAllDue<C(!new)>(s: Sched<C>, cs: seq<Call<C>>, now: int)
    requires Inv(s) && now <= s.clock
    ensures Due(ApplyAll(s, cs), now) == Keep(Due(s, now), NotIn(Touched(cs)))
    decreases |cs|
  {
    if cs == [] {
      KeepAll(Due(s, now), NotIn(Touched(cs)));
    } else {
      var first: set<int> := if cs[0].CallAdd? then {} else {cs[0].id};
      ApplyDue(s, cs[0], now);
      ApplyKeepsInv(s, cs[0]);
      ApplyAllDue(Apply(s, cs[0]), cs[1..], now);
      KeepKeep(Due(s, now), NotIn(first), NotIn(Touched(cs[1..])));
      KeepSame(Due(s, now), (t: TimerItem<C>) => NotIn<C>(first)(t) && NotIn<C>(Touched(cs[1..]))(t), NotIn(Touched(cs)));
    }
  }

  lemma HeadOfDue<C(!new)>(s: Sched<C>, now: int)
    requires Inv(s)
    ensures s.items != [] && s.items[0].nextCallTime <= now
            ==> Due(s, now) == [s.items[0]] + Keep(s.items[1..], DueBy(now))
    ensures s.items == [] || s.items[0].nextCallTime > now ==> Due(s, now) == []
  {
    if s.items != [] && s.items[0].nextCallTime > now {
      assert s.items == [s.items[0]] + s.items[1..];
      KeepNone(s.items, DueBy(now));
    }
  }

  /** Firing the head removes it from the due entries and adds none. */
  lemma FireDue<C(!new)>(s: Sched<C>, now: int)
    requires Inv(s) && s.items != [] && s.items[0].nextCallTime <= now <= s.clock
    ensures Due(s, now) == [s.items[0]] + Due(FireHead(s, now), now)
  {
    HeadOfDue(s, now);
    var t := s.items[0];
    assert t in s.items && ItemOk(s, t);
    if !LastFiring(t) && !Stuck(t, now) {
      KeepInsert(s.items[1..],
        t.(callbackCount := t.callbackCount + 1, nextCallTime := now + t.interval, stamp := s.serial), DueBy(now));
    }
  }

  /** The calls made by the callback of the k-th firing of a pass. */
  function At<C(!new)>(script: seq<seq<Call<C>>>, k: nat): seq<Call<C>> {
    if k < |script| then script[k] else []
  }

  /** One turn of the drain loop: fire the head, then run its callback. */
  function Turn<C(!new)>(s: Sched<C>, now: int, calls: seq<Call<C>>): Sched<C>
    requires s.items != []
  {
    if Stuck(s.items[0], now) then FireHead(s, now) else ApplyAll(FireHead(s, now), calls)
  }

  /** A turn runs one due entry and loses, besides it, exactly the due entries its callback
      removed or reset; a stuck entry is dropped unrun. */
  lemma TurnDue<C(!new)>(s: Sched<C>, now: int, calls: seq<Call<C>>)
    requires Inv(s) && s.items != [] && s.items[0].nextCallTime <= now <= s.clock
    ensures var r := Turn(s, now, calls);
            var t := s.items[0];
            && Inv(r) && s.clock <= r.clock
            && Due(s, now) != [] && Due(s, now)[0] == t
            && (Stuck(t, now) ==> r.fired == s.fired && Due(r, now) == Due(s, now)[1..])
            && (!Stuck(t, now) ==> r.fired == s.fired + [t.epoch]
                                   && Due(r, now) == Keep(Due(s, now)[1..], NotIn(Touched(calls))))
  {
    FireKeepsInv(s, now);
    FireDue(s, now);
    var f := FireHead(s, now);
    assert Due(s, now)[1..] == Due(f, now);
    if !Stuck(s.items[0], now) {
      ApplyAllKeepsInv(f, calls);
      ApplyAllDue(f, calls, now);
    }
  }

  lemma {:induction false} KeepShorter<C(!new)>(l: seq<TimerItem<C>>, p: TimerItem<C> -> bool)
    ensures |Keep(l, p)| <= |l|
  {
    if l != [] { KeepShorter(l[1..], p); }
  }

  /** ProcessTimers from the k-th firing on, for the clock reading `now` taken at its start. */
  function Pass<C(!new)>(s: Sched<C>, now: int, script: seq<seq<Call<C>>>, k: nat): Sched<C>
    requires Inv(s) && now <= s.clock
    decreases |Due(s, now)|
  {
    if s.items == [] || s.items[0].nextCallTime > now then s
    else
      TurnDue(s, now, At(script, k));
      KeepShorter(Due(s, now)[1..], NotIn(Touched(At(script, k))));
      var r := Turn(s, now, At(script, k));
      if Stuck(s.items[0], now) then r else Pass(r, now, script, k + 1)
  }

  /** What a pass should do, told from the entries due at its start alone: run them in order,
      skipping those an earlier callback of the pass removed or reset, and stop at an entry
      whose next deadline overflows.  Yields the entries run and the due entries left over. */
  function Drain<C(!new)>(due: seq<TimerItem<C>>, now: int, script: seq<seq<Call<C>>>, k: nat)
    : (seq<TimerItem<C>>, seq<TimerItem<C>>)
    decreases |due|
  {
    if due == [] then ([], [])
    else if Stuck(due[0], now) then ([], due[1..])
    else
      KeepShorter(due[1..], NotIn(Touched(At(script, k))));
      var (ran, left) := Drain(Keep(due[1..], NotIn(Touched(At(script, k)))), now, script, k + 1);
      ([due[0]] + ran, left)
  }

  lemma DrainCons<C(!new)>(due: seq<TimerItem<C>>, now: int, script: seq<seq<Call<C>>>, k: nat)
    requires due != [] && !Stuck(due[0], now)
    ensures var rest := Drain(Keep(due[1..], NotIn(Touched(At(script, k)))), now, script, k + 1);
            Drain(due, now, script, k) == ([due[0]] + rest.0, rest.1)
  {
  }

  ghost predicate Drained<C(!new)>(s: Sched<C>, r: Sched<C>, now: int, outcome: (seq<TimerItem<C>>, seq<TimerItem<C>>)) {
    Inv(r) && r.clock >= s.clock && r.fired == s.fired + Epochs(outcome.0) && Due(r, now) == outcome.1
  }

  lemma DrainedCons<C(!new)>(s: Sched<C>, r: Sched<C>, end: Sched<C>, now: int, t: TimerItem<C>, rest: (seq<TimerItem<C>>, seq<TimerItem<C>>))
    requires Drained(r, end, now, rest) && r.clock >= s.clock && r.fired == s.fired + [t.epoch]
    ensures Drained(s, end, now, ([t] + rest.0, rest.1))
  {
    assert Epochs([t] + rest.0) == [t.epoch] + Epochs(rest.0);
  }

  lemma PassUnfolds<C(!new)>(s: Sched<C>, now: int, script: seq<seq<Call<C>>>, k: nat)
    requires Inv(s) && s.items != [] && s.items[0].nextCallTime <= now <= s.clock
    requires Inv(Turn(s, now, At(script, k))) && now <= Turn(s, now, At(script, k)).clock
    ensures Pass(s, now, script, k) ==
              var r := Turn(s, now, At(script, k));
              if Stuck(s.items[0], now) then r else Pass(r, now, script, k + 1)
  {
  }

  lemma {:induction false} PassDrains<C(!new)>(s: Sched<C>, now: int, script: seq<seq<Call<C>>>, k: nat)
    requires Inv(s) && now <= s.clock
    ensures Drained(s, Pass(s, now, script, k), now, Drain(Due(s, now), now, script, k))
    decreases |Due(s, now)|
  {
    HeadOfDue(s, now);
    if s.items != [] && s.items[0].nextCallTime <= now {
      var due := Due(s, now);
      var r := Turn(s, now, At(script, k));
      TurnDue(s, now, At(script, k));
      PassUnfolds(s, now, script, k);
      if !Stuck(due[0], now) {
        KeepShorter(due[1..], NotIn(Touched(At(script, k))));
        PassDrains(r, now, script, k + 1);
        DrainCons(due, now, script, k);
        DrainedCons(s, r, Pass(r, now, script, k + 1), now, due[0], Drain(Due(r, now), now, script, k + 1));
      }
    }
  }

  /** The ids touched by the callback of the i-th firing after the k-th. */
  function TouchedBy<C(!new)>(script: seq<seq<Call<C>>>, k: nat, i: nat): set<int> { Touched(At(script, k + i)) }

  /** `t` was removed or reset by the callback of some entry run before its turn. */
  ghost predicate SkippedBy<C(!new)>(ran: seq<TimerItem<C>>, t: TimerItem<C>, script: seq<seq<Call<C>>>, k: nat) {
    exists i :: 0 <= i < |ran| && Before(ran[i], t) && t.id in TouchedBy(script, k, i)
  }

  /** `ran` is `due` in order, each entry at most once, without exactly those entries that an
      earlier callback of the pass removed or reset. */
  ghost predicate RanInTurn<C(!new)>(due: seq<TimerItem<C>>, ran: seq<TimerItem<C>>, script: seq<seq<Call<C>>>, k: nat) {
    && Sorted(ran)
    && (forall t | t in ran :: t in due)
    && (forall i, j | 0 <= i < j < |ran| :: ran[j].id !in TouchedBy(script, k, i))
    && (forall t | t in due && t !in ran :: SkippedBy(ran, t, script, k))
  }

  lemma SkippedCons<C(!new)>(x: TimerItem<C>, sub: seq<TimerItem<C>>, t: TimerItem<C>, script: seq<seq<Call<C>>>, k: nat)
    requires Before(x, t)
    requires t.id in Touched(At(script, k)) || SkippedBy(sub, t, script, k + 1)
    ensures SkippedBy([x] + sub, t, script, k)
  {
    var ran := [x] + sub;
    if t.id in Touched(At(script, k)) {
      assert Before(ran[0], t) && t.id in TouchedBy(script, k, 0);
    } else {
      var i :| 0 <= i < |sub| && Before(sub[i], t) && t.id in TouchedBy(script, k + 1, i);
      assert Before(ran[i + 1], t) && t.id in TouchedBy(script, k, i + 1);
    }
  }

  lemma SparedCons<C(!new)>(x: TimerItem<C>, sub: seq<TimerItem<C>>, script: seq<seq<Call<C>>>, k: nat, i: nat, j: nat)
    requires i < j <= |sub|
    requires sub[j - 1].id !in Touched(At(script, k))
    requires i > 0 ==> sub[j - 1].id !in TouchedBy(script, k + 1, i - 1)
    ensures ([x] + sub)[j].id !in TouchedBy(script, k, i)
  {
    assert ([x] + sub)[j] == sub[j - 1];
  }

  lemma RanInTurnCons<C(!new)>(due: seq<TimerItem<C>>, rest: seq<TimerItem<C>>, sub: seq<TimerItem<C>>, script: seq<seq<Call<C>>>, k: nat)
    requires due != [] && forall t | t in due[1..] :: Before(due[0], t)
    requires forall x :: x in rest <==> x in due[1..] && x.id !in Touched(At(script, k))
    requires RanInTurn(rest, sub, script, k + 1)
    ensures RanInTurn(due, [due[0]] + sub, script, k)
  {
    var ran := [due[0]] + sub;
    assert due == [due[0]] + due[1..] && ran[1..] == sub;
    forall i, j | 0 <= i < j < |ran| ensures ran[j].id !in TouchedBy(script, k, i) {
      assert sub[j - 1] in sub;
      SparedCons(due[0], sub, script, k, i, j);
    }
    forall t | t in due && t !in ran ensures SkippedBy(ran, t, script, k) {
      assert t in due[1..] && t !in sub;
      SkippedCons(due[0], sub, t, script, k);
    }
  }

  lemma {:induction false} DrainRunsUntouched<C(!new)>(due: seq<TimerItem<C>>, now: int, script: seq<seq<Call<C>>>, k: nat)
    requires Sorted(due) && Distinct(due)
    requires forall t | t in due :: !Stuck(t, now)
    ensures Drain(due, now, script, k).1 == []
    ensures RanInTurn(due, Drain(due, now, script, k).0, script, k)
    decreases |due|
  {
    if due != [] {
      var touched := Touched(At(script, k));
      KeepShorter(due[1..], NotIn(touched));
      KeepMembers(due[1..], NotIn(touched));
      KeepOrdered(due[1..], NotIn(touched));
      DrainRunsUntouched(Keep(due[1..], NotIn(touched)), now, script, k + 1);
      RanInTurnCons(due, Keep(due[1..], NotIn(touched)), Drain(Keep(due[1..], NotIn(touched)), now, script, k + 1).0, script, k);
      DrainCons(due, now, script, k);
    }
  }

  /** ProcessTimers: with the clock at least MAX_INTERVAL below the end of the int64 range a
      pass leaves no due entry, whatever its callbacks ask of the manager; the callbacks it
      runs are those of the entries due at its start, in deadline order with ties in insertion
      order, each once, except those that an earlier callback of the pass removed or reset. */
  lemma ProcessRunsEachDueOnce<C(!new)>(s: Sched<C>, now: int, script: seq<seq<Call<C>>>)
    requires Inv(s) && now <= s.clock && now + MAX_INTERVAL <= INT64_MAX
    ensures var r := Pass(s, now, script, 0);
            var ran := Drain(Due(s, now), now, script, 0).0;
            && Inv(r) && Due(r, now) == [] && r.fired == s.fired + Epochs(ran)
            && RanInTurn(Due(s, now), ran, script, 0)
  {
    PassDrains(s, now, script, 0);
    NoneStuck(s, now);
    DrainRunsUntouched(Due(s, now), now, script, 0);
  }

  lemma NoneStuck<C(!new)>(s: Sched<C>, now: int)
    requires Inv(s) && now + MAX_INTERVAL <= INT64_MAX
    ensures Sorted(Due(s, now)) && Distinct(Due(s, now))
    ensures forall t | t in Due(s, now) :: t in s.items && !Stuck(t, now)
  {
    KeepMembers(s.items, DueBy(now));
    KeepOrdered(s.items, DueBy(now));
    forall t | t in Due(s, now) ensures !Stuck(t, now) { assert ItemOk(s, t); }
  }

  /** A pass leaves a due entry behind only when it met an entry whose next deadline
      overflows; that entry is lost without its callback having run. */
  lemma {:induction false} LeftoverMeansOverflow<C(!new)>(due: seq<TimerItem<C>>, now: int, script: seq<seq<Call<C>>>, k: nat)
    ensures var (ran, left) := Drain(due, now, script, k);
            left != [] ==> exists t :: t in due && Stuck(t, now) && t !in left + ran
    requires Sorted(due) && Distinct(due)
    decreases |due|
  {
    if due != [] {
      assert due == [due[0]] + due[1..];
      var touched := Touched(At(script, k));
      var rest := Keep(due[1..], NotIn(touched));
      KeepShorter(due[1..], NotIn(touched));
      KeepMembers(due[1..], NotIn(touched));
      KeepOrdered(due[1..], NotIn(touched));
      if Stuck(due[0], now) {
        assert due[0] in due && due[0] !in due[1..] + [];
      } else {
        LeftoverMeansOverflow(rest, now, script, k + 1);
        var (ran, left) := Drain(rest, now, script, k + 1);
        if left != [] {
          var t :| t in rest && Stuck(t, now) && t !in left + ran;
          assert t in due && t !in left + ([due[0]] + ran);
        }
      }
    }
  }

  // ---------- every run ----------

  datatype Op<C> = Do(call: Call<C>) | Process(tick: nat, script: seq<seq<Call<C>>>)

  function Step<C(!new)>(s: Sched<C>, op: Op<C>): Sched<C>
    requires Inv(s)
  {
    match op
    case Do(call) => Apply(s, call)
    case Process(tick, script) =>
      if s.items == [] then s else
      TickKeepsInv(s, s.clock + tick);
      Pass(s.(clock := s.clock + tick), s.clock + tick, script, 0)
  }

  lemma StepKeepsInv<C(!new)>(s: Sched<C>, op: Op<C>)
    requires Inv(s)
    ensures Inv(Step(s, op))
  {
    match op
    case Do(call) => ApplyKeepsInv(s, call);
    case Process(tick, script) =>
      TickKeepsInv(s, s.clock + tick);
      PassKeepsInv(s.(clock := s.clock + tick), script);
  }

  lemma PassKeepsInv<C(!new)>(s: Sched<C>, script: seq<seq<Call<C>>>)
    requires Inv(s)
    ensures Inv(Pass(s, s.clock, script, 0))
  {
    PassDrains(s, s.clock, script, 0);
  }

  function Run<C(!new)>(s: Sched<C>, ops: seq<Op<C>>): (r: Sched<C>)
    requires Inv(s)
    ensures Inv(r)
    decreases |ops|
  {
    if ops == [] then s else
    StepKeepsInv(s, ops[0]);
    Run(Step(s, ops[0]), ops[1..])
  }

  /** In every run an arming with repeat count n >= 1 fires at most n times; it is on the list
      until its n-th firing and off it from then on, unless a RemoveTimer, ResetTimer or
      overflow ended it, and then it fired fewer than n times.  An arming with n < 1 stays
      until one of these ends it. */
  lemma RunFiresAsOftenAsAsked<C(!new)>(clock: int, ops: seq<Op<C>>, e: nat)
    requires e < |Run(Initial(clock), ops).armed|
    ensures var s := Run(Initial(clock), ops);
            var n := s.armed[e];
            var count := multiset(s.fired)[e];
            && (n >= 1 ==> count <= n)
            && (Live(s, e) <==> e !in s.ended && !(n >= 1 && count == n))
            && (e in s.ended && n >= 1 ==> count < n)
  {
    var s := Run(Initial(clock), ops);
    assert EpochOk(s, e);
    if Live(s, e) { var t :| t in s.items && t.epoch == e; assert ItemOk(s, t); }
  }

  lemma InitialInv<C(!new)>(clock: int)
    ensures Inv(Initial<C>(clock))
  {
  }

  /** In every run the list is ordered by deadline and then insertion, its ids are distinct
      and within 0..63, and AddTimer takes the least id not in use, failing for want of one
      only when all 64 are in use. */
  lemma RunListOrdered<C(!new)>(clock: int, ops: seq<Op<C>>)
    ensures var l := Run(Initial(clock), ops).items;
            && (forall i, j | 0 <= i < j < |l| :: Before(l[i], l[j]) && l[i].id != l[j].id)
            && (forall i | 0 <= i < |l| :: 0 <= l[i].id < MAX_TIMER_COUNT)
            && |l| <= MAX_TIMER_COUNT
            && (FreeId(l) == NONEXISTENT_ID <==> |l| == MAX_TIMER_COUNT)
  {
    OrderedIds(Run(Initial(clock), ops));
  }

  lemma OrderedIds<C(!new)>(s: Sched<C>)
    requires Inv(s)
    ensures forall i, j | 0 <= i < j < |s.items| :: Before(s.items[i], s.items[j]) && s.items[i].id != s.items[j].id
    ensures forall i | 0 <= i < |s.items| :: 0 <= s.items[i].id < MAX_TIMER_COUNT
    ensures |s.items| <= MAX_TIMER_COUNT
    ensures FreeId(s.items) == NONEXISTENT_ID <==> |s.items| == MAX_TIMER_COUNT
  {
    var l := s.items;
    forall i, j | 0 <= i < j < |l| ensures Before(l[i], l[j]) && l[i].id != l[j].id {
      SortedAt(l, i, j);
      DistinctAt(l, i, j);
    }
    forall i | 0 <= i < |l| ensures 0 <= l[i].id < MAX_TIMER_COUNT { assert l[i] in l && ItemOk(s, l[i]); }
    FullTable(l);
  }

  /** Distinct ids within 0..63 fill the table exactly when there are 64 of them. */
  lemma FullTable<C(!new)>(l: seq<TimerItem<C>>)
    requires Distinct(l) && forall i | 0 <= i < |l| :: 0 <= l[i].id < MAX_TIMER_COUNT
    ensures |l| <= MAX_TIMER_COUNT
    ensures FreeId(l) == NONEXISTENT_ID <==> |l| == MAX_TIMER_COUNT
  {
    IdSetSize(l);
    var all := Range(MAX_TIMER_COUNT);
    var used := IdSet(l);
    assert used <= all;
    SubsetSize(used, all);
    forall k ensures k in used <==> HasId(l, k) {}
    var free := FreeId(l);
    if free == NONEXISTENT_ID {
      assert all <= used;
      SubsetSize(all, used);
    } else {
      assert free !in used && free in all;
      SubsetSize(used, all - {free});
    }
  }

  lemma {:induction false} DistinctAt<C(!new)>(l: seq<TimerItem<C>>, i: nat, j: nat)
    requires Distinct(l) && i < j < |l|
    ensures l[i].id != l[j].id
  {
    if i == 0 { assert l[j] == l[1..][j - 1]; } else { DistinctAt(l[1..], i - 1, j - 1); }
  }

  ghost function IdSet<C(!new)>(l: seq<TimerItem<C>>): set<int> { set i | 0 <= i < |l| :: l[i].id }

  lemma {:induction false} IdSetSize<C(!new)>(l: seq<TimerItem<C>>)
    requires Distinct(l)
    ensures |IdSet(l)| == |l|
  {
    if l == [] {
      assert IdSet(l) == {};
    } else {
      var rest := l[1..];
      IdSetSize(rest);
      forall x ensures x in IdSet(l) <==> x == l[0].id || x in IdSet(rest) {
        if x in IdSet(l) && x != l[0].id { var i :| 0 <= i < |l| && l[i].id == x; assert rest[i - 1].id == x; }
        if x in IdSet(rest) { var i :| 0 <= i < |rest| && rest[i].id == x; assert l[i + 1].id == x; }
        if x == l[0].id { assert l[0].id in IdSet(l); }
      }
      assert IdSet(l) == {l[0].id} + IdSet(rest);
      assert l[0].id !in IdSet(rest);
    }
  }

  // ---------- the delay handed to the event wait ----------

  /** How long until `t` is due, seen at `now`. */
  function Remaining<C(!new)>(t: TimerItem<C>, now: int): int {
    if now >= t.nextCallTime then 0 else t.nextCallTime - now
  }

  function NextDelay<C(!new)>(s: Sched<C>, now: int): int {
    if s.items == [] then -1 else Remaining(s.items[0], now)
  }

  /** CalcNextDelay is the least remaining time over all timers, or -1 without timers, and it
      always lies in [-1, 4096]. */
  lemma NextDelayIsLeast<C(!new)>(s: Sched<C>, now: int)
    requires Inv(s) && now >= s.clock
    ensures -1 <= NextDelay(s, now) <= MAX_INTERVAL
    ensures NextDelay(s, now) == -1 <==> s.items == []
    ensures s.items != [] ==> exists t :: t in s.items && NextDelay(s, now) == Remaining(t, now)
    ensures forall t | t in s.items :: NextDelay(s, now) <= Remaining(t, now)
  {
    if s.items != [] {
      assert s.items == [s.items[0]] + s.items[1..];
      assert s.items[0] in s.items && ItemOk(s, s.items[0]);
    }
  }

  /** Before the delay has run out nothing is due; once it has, a pass at that time takes up
      the earliest timer first. */
  lemma WaitingOutTheDelay<C(!new)>(s: Sched<C>, now: int, later: int, script: seq<seq<Call<C>>>)
    requires Inv(s) && now >= s.clock && later >= now && s.items != []
    ensures later < now + NextDelay(s, now) ==> Due(s, later) == []
    ensures later >= now + NextDelay(s, now) && !Stuck(s.items[0], later) ==>
              var ran := Drain(Due(s, later), later, script, 0).0;
              ran != [] && ran[0] == s.items[0]
  {
    HeadOfDue(s, later);
  }
}
