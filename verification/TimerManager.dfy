/** TimerManager, its list edited in place by loops; every method is proved against the
    functions of module Timers. */
module TimerManagerClass {
  import opened Options
  import opened TimerList
  import opened Timers

  class TimerManager<C(!new)> {
    var items: seq<TimerItem<C>>
    // What the run did so far; see Timers.Sched.
    var clock: int
    var serial: nat
    var armed: seq<int>
    var fired: seq<nat>
    var ended: set<nat>

    function View(): Sched<C>
      reads this
    {
      Sched(items, clock, serial, armed, fired, ended)
    }

    constructor (now: int)
      ensures View() == Initial(now) && Inv(View())
    {
      items, clock, serial, armed, fired, ended := [], now, 0, [], [], {};
    }

    /** The 64-bit slot mask is the set of its one bits. */
    method TakeNextTimerId() returns (id: int)
      ensures id == FreeId(items)
    {
      var timerSlot: set<int> := {};
      for n := 0 to |items|
        invariant forall j :: j in timerSlot <==> exists i :: 0 <= i < n && items[i].id == j
      {
        timerSlot := timerSlot + {items[n].id};
      }
      for i := 0 to MAX_TIMER_COUNT
        invariant forall k | 0 <= k < i :: HasId(items, k)
      {
        if i !in timerSlot {
          assert LeastFree(items, i);
          return i;
        }
      }
      return NONEXISTENT_ID;
    }

    method InsertTimer(t: TimerItem<C>)
      modifies this
      ensures View() == old(View()).(items := Insert(old(items), t), serial := old(serial) + 1)
    {
      var n := 0;
      while n < |items| && items[n].nextCallTime <= t.nextCallTime
        invariant n <= |items|
        invariant forall k :: 0 <= k < n ==> items[k].nextCallTime <= t.nextCallTime
      {
        n := n + 1;
      }
      InsertAt(items, t, n);
      items := items[..n] + [t] + items[n..];
      serial := serial + 1;
    }

    method FindTimer(id: int) returns (n: nat)
      ensures n <= |items|
      ensures n < |items| <==> HasId(items, id)
      ensures n < |items| ==> items[n] == Lookup(items, id) && Erase(items, id) == items[..n] + items[n + 1..]
    {
      n := 0;
      while n < |items| && items[n].id != id
        invariant n <= |items|
        invariant forall k :: 0 <= k < n ==> items[k].id != id
      {
        n := n + 1;
      }
      if n < |items| { EraseAt(items, id, n); }
    }

    method AddTimer(intervalMs: int, repeatCount: int, callback: Option<C>, tick: nat) returns (id: int)
      modifies this
      ensures callback.None? ==> id == NONEXISTENT_ID && View() == old(View())
      ensures callback.Some? ==> (View(), id) == Add(old(View()), intervalMs, repeatCount, callback.value, tick)
    {
      var interval := intervalMs;
      if interval < MIN_INTERVAL {
        interval := MIN_INTERVAL;
      } else if interval > MAX_INTERVAL {
        interval := MAX_INTERVAL;
      }
      if callback.None? {
        return NONEXISTENT_ID;
      }
      id := TakeNextTimerId();
      if id < 0 {
        return NONEXISTENT_ID;
      }
      clock := clock + tick;
      if clock + interval > INT64_MAX {
        return NONEXISTENT_ID;
      }
      InsertTimer(TimerItem(id, interval, repeatCount, 0, clock + interval, callback.value, |armed|, serial));
      armed := armed + [repeatCount];
    }

    method RemoveTimer(id: int) returns (ok: bool)
      modifies this
      ensures View() == Remove(old(View()), id)
      ensures ok <==> HasId(old(items), id)
    {
      var n := FindTimer(id);
      ok := n < |items|;
      if ok {
        ended := ended + {items[n].epoch};
        items := items[..n] + items[n + 1..];
      }
    }

    method ResetTimer(id: int, tick: nat) returns (ok: bool)
      modifies this
      ensures View() == Reset(old(View()), id, tick)
      ensures ok <==> HasId(old(items), id) && !Overflows(old(clock) + tick, Lookup(old(items), id).interval)
    {
      var n := FindTimer(id);
      if n == |items| {
        return false;
      }
      var timer := items[n];
      items := items[..n] + items[n + 1..];
      ended := ended + {timer.epoch};
      clock := clock + tick;
      if clock + timer.interval > INT64_MAX {
        return false;
      }
      var again := timer.(nextCallTime := clock + timer.interval, callbackCount := 0, epoch := |armed|, stamp := serial);
      InsertTimer(again);
      armed := armed + [timer.repeatCount];
      ok := true;
    }

    method IsExist(id: int) returns (found: bool)
      ensures found <==> HasId(items, id)
    {
      var n := FindTimer(id);
      found := n < |items|;
    }

    method CalcNextDelay(now: int) returns (delay: int)
      requires Inv(View()) && now >= clock
      ensures -1 <= delay <= MAX_INTERVAL
      ensures delay == -1 <==> items == []
      ensures forall t | t in items :: delay <= Remaining(t, now)
      ensures items != [] ==> exists t :: t in items && delay == Remaining(t, now)
    {
      delay := -1;
      NextDelayIsLeast(View(), now);
      if |items| != 0 {
        if now >= items[0].nextCallTime {
          delay := 0;
        } else {
          delay := items[0].nextCallTime - now;
        }
      }
    }

    /** What one callback asks of the manager. */
    method RunCallback(calls: seq<Call<C>>)
      modifies this
      ensures View() == ApplyAll(old(View()), calls)
    {
      for n := 0 to |calls|
        invariant ApplyAll(View(), calls[n..]) == ApplyAll(old(View()), calls)
      {
        assert calls[n..][0] == calls[n] && calls[n..][1..] == calls[n + 1..];
        match calls[n]
        case CallAdd(interval, repeatCount, callback, tick) =>
          var _ := AddTimer(interval, repeatCount, Some(callback), tick);
        case CallRemove(id) =>
          var _ := RemoveTimer(id);
        case CallReset(id, tick) =>
          var _ := ResetTimer(id, tick);
      }
    }

    /** One turn of the drain loop: take the head, put it back if it repeats, run its callback. */
    method RunHead(nowTime: int, calls: seq<Call<C>>) returns (overflow: bool)
      requires items != []
      modifies this
      ensures View() == Turn(old(View()), nowTime, calls)
      ensures overflow <==> Stuck(old(items[0]), nowTime)
    {
      var curTimer := items[0];
      items := items[1..];
      if curTimer.repeatCount >= 1 && curTimer.callbackCount + 1 >= curTimer.repeatCount {
        fired := fired + [curTimer.epoch];
      } else {
        if nowTime + curTimer.interval > INT64_MAX {
          ended := ended + {curTimer.epoch};
          return true;
        }
        InsertTimer(curTimer.(callbackCount := curTimer.callbackCount + 1,
                              nextCallTime := nowTime + curTimer.interval, stamp := serial));
        fired := fired + [curTimer.epoch];
      }
      RunCallback(calls);
      return false;
    }

    /** The drain loop.  `script[k]` is what the k-th callback it runs asks of the manager. */
    method Drain(nowTime: int, script: seq<seq<Call<C>>>)
      requires Inv(View()) && nowTime <= clock
      modifies this
      ensures View() == Pass(old(View()), nowTime, script, 0)
    {
      var k := 0;
      while |items| != 0 && items[0].nextCallTime <= nowTime
        invariant Inv(View()) && nowTime <= clock
        invariant Pass(View(), nowTime, script, k) == Pass(old(View()), nowTime, script, 0)
        decreases |Due(View(), nowTime)|
      {
        TurnDue(View(), nowTime, At(script, k));
        KeepShorter(Due(View(), nowTime)[1..], NotIn(Touched(At(script, k))));
        var overflow := RunHead(nowTime, At(script, k));
        if overflow {
          return;
        }
        k := k + 1;
      }
    }

    method ProcessTimers(tick: nat, script: seq<seq<Call<C>>>)
      requires Inv(View())
      modifies this
      ensures Inv(View()) && View() == Step(old(View()), Process(tick, script))
    {
      StepKeepsInv(View(), Process(tick, script));
      if |items| == 0 {
        return;
      }
      TickKeepsInv(View(), clock + tick);
      clock := clock + tick;
      Drain(clock, script);
    }
  }

  lemma {:induction false} InsertAt<C(!new)>(l: seq<TimerItem<C>>, t: TimerItem<C>, n: nat)
    requires n <= |l|
    requires forall k :: 0 <= k < n ==> l[k].nextCallTime <= t.nextCallTime
    requires n < |l| ==> l[n].nextCallTime > t.nextCallTime
    ensures Insert(l, t) == l[..n] + [t] + l[n..]
  {
    if n > 0 {
      assert l[1..][..n - 1] == l[1..n] && l[1..][n - 1..] == l[n..];
      InsertAt(l[1..], t, n - 1);
      assert l[..n] == [l[0]] + l[1..n];
    }
  }

  lemma {:induction false} EraseAt<C(!new)>(l: seq<TimerItem<C>>, id: int, n: nat)
    requires n < |l| && l[n].id == id
    requires forall k :: 0 <= k < n ==> l[k].id != id
    ensures HasId(l, id) && Lookup(l, id) == l[n]
    ensures Erase(l, id) == l[..n] + l[n + 1..]
  {
    if n > 0 {
      assert l[1..][..n - 1] == l[1..n] && l[1..][n..] == l[n + 1..];
      EraseAt(l[1..], id, n - 1);
      assert l[..n] == [l[0]] + l[1..n];
    }
  }
}
