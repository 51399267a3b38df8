/** Claims of touch gestures told from the events of a run: who monitors, what a device is known
    by, and when a CANCEL is due. */
module TouchClaims {
  import opened Options
  import opened TouchMonitors

  const NOTHING_SEEN := Monitors(map[], {})

  /** The monitors saw a touch of device `d`. */
  predicate Touches(e: Event, d: int) { e.Pointer? && e.event.isTouch && !e.event.noMonitor && e.event.deviceId == d }

  predicate Begins(e: Event, d: int) { Touches(e, d) && e.event.pointers == 1 && e.event.action == 2 }

  predicate Ends(e: Event, d: int) { Touches(e, d) && e.event.pointers == 1 && e.event.action == 4 }

  /** The states reached: `ms[n]` after the first `n` events. */
  ghost predicate Trace(ms: seq<Monitors>, es: seq<Event>) {
    && |ms| == |es| + 1 && ms[0] == NOTHING_SEEN
    && forall i | 0 <= i < |es| :: ms[i + 1] == Step(ms[i], es[i]).0
  }

  /** The session asked to monitor when there was room for one more, and has not left since. */
  ghost predicate Registered(ms: seq<Monitors>, es: seq<Event>, n: nat, session: int)
    requires n <= |es| < |ms|
  {
    exists i :: 0 <= i < n && es[i] == AddMonitor(session) && |ms[i].monitors| < 16
                && forall k | i < k < n :: es[k] != RemoveMonitor(session)
  }

  /** A touch of device `d` had this id, and the gesture has neither ended nor given way to a new one. */
  ghost predicate Knows(es: seq<Event>, n: nat, d: int, id: int)
    requires n <= |es|
  {
    exists i :: 0 <= i < n && Touches(es[i], d) && es[i].event.id == id
                && (forall k | i <= k < n :: !Ends(es[k], d)) && (forall k | i < k < n :: !Begins(es[k], d))
  }

  predicate LatestTouch(es: seq<Event>, n: nat, d: int, i: nat)
    requires n <= |es|
  {
    i < n && Touches(es[i], d) && forall k | i < k < n :: !Touches(es[k], d)
  }

  /** The first of the devices walked that knows the id. */
  ghost predicate FirstKnowing(es: seq<Event>, n: nat, order: seq<int>, p: nat, id: int)
    requires n <= |es|
  {
    p < |order| && Knows(es, n, order[p], id) && forall q | 0 <= q < p :: !Knows(es, n, order[q], id)
  }

  /** Event `i` is a claim by a monitor on a gesture of device `d`. */
  ghost predicate Claims(ms: seq<Monitors>, es: seq<Event>, i: nat, d: int)
    requires i < |es| < |ms|
  {
    && es[i].MarkConsumed? && Registered(ms, es, i, es[i].session)
    && exists p: nat :: p < |es[i].order| && es[i].order[p] == d && FirstKnowing(es, i, es[i].order, p, es[i].id)
  }

  /** The gesture of device `d` under way, or last seen, was claimed. */
  ghost predicate Claimed(ms: seq<Monitors>, es: seq<Event>, n: nat, d: int)
    requires n <= |es| < |ms|
  {
    exists i :: 0 <= i < n && Claims(ms, es, i, d) && forall k | i < k < n :: !Begins(es[k], d)
  }

  // ---------- the state says just that ----------

  lemma RegisteredSnoc(ms: seq<Monitors>, es: seq<Event>, n: nat, session: int)
    requires 0 < n <= |es| < |ms|
    ensures Registered(ms, es, n, session) <==>
            || (es[n - 1] == AddMonitor(session) && |ms[n - 1].monitors| < 16)
            || (es[n - 1] != RemoveMonitor(session) && Registered(ms, es, n - 1, session))
  {
    if es[n - 1] != RemoveMonitor(session) && Registered(ms, es, n - 1, session) {
      var i :| 0 <= i < n - 1 && es[i] == AddMonitor(session) && |ms[i].monitors| < 16
               && forall k | i < k < n - 1 :: es[k] != RemoveMonitor(session);
      assert Registered(ms, es, n, session);
    }
  }

  lemma {:induction false} MonitorsExactly(ms: seq<Monitors>, es: seq<Event>, n: nat, session: int)
    requires Trace(ms, es) && n <= |es|
    ensures session in ms[n].monitors <==> Registered(ms, es, n, session)
  {
    if n > 0 {
      MonitorsExactly(ms, es, n - 1, session);
      RegisteredSnoc(ms, es, n, session);
      assert ms[n] == Step(ms[n - 1], es[n - 1]).0;
    }
  }

  lemma IdsStep(m: Monitors, e: Event, d: int, id: int)
    ensures id in StateOf(Step(m, e).0, d).eventIds <==>
            !Ends(e, d) && ((Touches(e, d) && e.event.id == id) || (id in StateOf(m, d).eventIds && !Begins(e, d)))
  {
  }

  lemma KnowsSnoc(es: seq<Event>, n: nat, d: int, id: int)
    requires 0 < n <= |es|
    ensures var e := es[n - 1];
            Knows(es, n, d, id) <==>
            !Ends(e, d) && ((Touches(e, d) && e.event.id == id) || (Knows(es, n - 1, d, id) && !Begins(e, d)))
  {
    if Knows(es, n - 1, d, id) && !Begins(es[n - 1], d) && !Ends(es[n - 1], d) {
      var i :| 0 <= i < n - 1 && Touches(es[i], d) && es[i].event.id == id
               && (forall k | i <= k < n - 1 :: !Ends(es[k], d)) && (forall k | i < k < n - 1 :: !Begins(es[k], d));
      assert Knows(es, n, d, id);
    }
  }

  lemma {:induction false} IdsExactly(ms: seq<Monitors>, es: seq<Event>, n: nat, d: int, id: int)
    requires Trace(ms, es) && n <= |es|
    ensures id in StateOf(ms[n], d).eventIds <==> Knows(es, n, d, id)
  {
    if n > 0 {
      IdsExactly(ms, es, n - 1, d, id);
      IdsStep(ms[n - 1], es[n - 1], d, id);
      KnowsSnoc(es, n, d, id);
      assert ms[n] == Step(ms[n - 1], es[n - 1]).0;
    }
  }

  lemma {:induction false} LastExactly(ms: seq<Monitors>, es: seq<Event>, n: nat, d: int, i: nat)
    requires Trace(ms, es) && n <= |es| && LatestTouch(es, n, d, i)
    ensures StateOf(ms[n], d).lastPointerEvent == Some(es[i].event)
  {
    assert ms[n] == Step(ms[n - 1], es[n - 1]).0;
    if i < n - 1 { LastExactly(ms, es, n - 1, d, i); }
  }

  /** Where an id is known there is a last touch. */
  lemma {:induction false} KnownIsTouched(es: seq<Event>, n: nat, d: int, id: int) returns (i: nat)
    requires n <= |es| && Knows(es, n, d, id)
    ensures LatestTouch(es, n, d, i)
  {
    var j :| 0 <= j < n && Touches(es[j], d);
    i := j;
    for k := j + 1 to n
      invariant i < k && Touches(es[i], d) && forall l | i < l < k :: !Touches(es[l], d)
    {
      if Touches(es[k], d) { i := k; }
    }
  }

  /** The device found by walking is the first that knows the id. */
  lemma {:induction false} FoundExactly(ms: seq<Monitors>, es: seq<Event>, n: nat, order: seq<int>, id: int, p: nat)
    requires Trace(ms, es) && n <= |es|
    ensures FirstKnowing(es, n, order, p, id) ==> FindDevice(ms[n], order, id) == Some(order[p])
    ensures FindDevice(ms[n], order, id).Some? ==> exists q: nat :: FirstKnowing(es, n, order, q, id)
    decreases |order|
  {
    if order != [] {
      IdsExactly(ms, es, n, order[0], id);
      if Knows(es, n, order[0], id) {
        assert FirstKnowing(es, n, order, 0, id);
      } else {
        if p > 0 {
          FoundExactly(ms, es, n, order[1..], id, p - 1);
          if FirstKnowing(es, n, order, p, id) {
            assert forall q | 0 <= q < p - 1 :: order[1..][q] == order[q + 1];
          }
        } else {
          FoundExactly(ms, es, n, order[1..], id, 0);
        }
        if FindDevice(ms[n], order, id).Some? {
          var q: nat :| FirstKnowing(es, n, order[1..], q, id);
          assert forall r | 0 < r < |order| :: order[r] == order[1..][r - 1];
          assert FirstKnowing(es, n, order, q + 1, id);
        }
      }
    }
  }

  /** A claim by a monitor on a device that knows the id: what the walk finds, exactly. */
  lemma FindsExactly(ms: seq<Monitors>, es: seq<Event>, i: nat, d: int)
    requires Trace(ms, es) && i < |es| && es[i].MarkConsumed?
    ensures Claims(ms, es, i, d) <==>
              es[i].session in ms[i].monitors && FindDevice(ms[i], es[i].order, es[i].id) == Some(d)
  {
    var e := es[i];
    MonitorsExactly(ms, es, i, e.session);
    if Claims(ms, es, i, d) {
      var p: nat :| p < |e.order| && e.order[p] == d && FirstKnowing(es, i, e.order, p, e.id);
      FoundExactly(ms, es, i, e.order, e.id, p);
    }
    FoundExactly(ms, es, i, e.order, e.id, 0);
    if FindDevice(ms[i], e.order, e.id) == Some(d) {
      var p: nat :| FirstKnowing(es, i, e.order, p, e.id);
      FoundExactly(ms, es, i, e.order, e.id, p);
    }
  }

  lemma ClaimedStep(m: Monitors, e: Event, d: int)
    ensures StateOf(Step(m, e).0, d).isMonitorConsumed <==>
            || (e.MarkConsumed? && e.session in m.monitors && FindDevice(m, e.order, e.id) == Some(d))
            || (StateOf(m, d).isMonitorConsumed && !Begins(e, d))
  {
  }

  lemma ClaimedSnoc(ms: seq<Monitors>, es: seq<Event>, n: nat, d: int)
    requires 0 < n <= |es| < |ms|
    ensures Claimed(ms, es, n, d) <==> Claims(ms, es, n - 1, d) || (Claimed(ms, es, n - 1, d) && !Begins(es[n - 1], d))
  {
    if Claimed(ms, es, n - 1, d) && !Begins(es[n - 1], d) {
      var i :| 0 <= i < n - 1 && Claims(ms, es, i, d) && forall k | i < k < n - 1 :: !Begins(es[k], d);
      assert Claimed(ms, es, n, d);
    }
  }

  lemma {:induction false} ClaimedExactly(ms: seq<Monitors>, es: seq<Event>, n: nat, d: int)
    requires Trace(ms, es) && n <= |es|
    ensures StateOf(ms[n], d).isMonitorConsumed <==> Claimed(ms, es, n, d)
  {
    if n > 0 {
      ClaimedExactly(ms, es, n - 1, d);
      ClaimedStep(ms[n - 1], es[n - 1], d);
      ClaimedSnoc(ms, es, n, d);
      if es[n - 1].MarkConsumed? { FindsExactly(ms, es, n - 1, d); }
      assert ms[n] == Step(ms[n - 1], es[n - 1]).0;
    }
  }

  /** In every run a CANCEL is sent exactly when a monitor claims an event of a gesture that is
      not claimed yet, and then it is the device's last touch event, renamed and flagged. */
  lemma CancelledExactlyWhen(ms: seq<Monitors>, es: seq<Event>, i: nat, c: PointerEvent)
    requires Trace(ms, es) && i < |es|
    ensures Step(ms[i], es[i]).1 == Cancelled(c) <==>
            exists d: int, j: nat :: es[i].MarkConsumed? && Claims(ms, es, i, d) && !Claimed(ms, es, i, d) && LatestTouch(es, i, d, j)
                              && c == es[j].event.(action := 1, id := es[i].freshId, noMonitor := true)
  {
    var e := es[i];
    if e.MarkConsumed? {
      forall d: int, j: nat | Claims(ms, es, i, d) && LatestTouch(es, i, d, j)
        ensures e.session in ms[i].monitors && FindDevice(ms[i], e.order, e.id) == Some(d)
        ensures StateOf(ms[i], d).isMonitorConsumed <==> Claimed(ms, es, i, d)
        ensures StateOf(ms[i], d).lastPointerEvent == Some(es[j].event)
      {
        FindsExactly(ms, es, i, d);
        ClaimedExactly(ms, es, i, d);
        LastExactly(ms, es, i, d, j);
      }
      var found := FindDevice(ms[i], e.order, e.id);
      if found.Some? && Step(ms[i], e).1 == Cancelled(c) {
        var d := found.value;
        FindsExactly(ms, es, i, d);
        ClaimedExactly(ms, es, i, d);
        var j := KnownIsTouched(es, i, d, e.id);
        LastExactly(ms, es, i, d, j);
      }
    }
  }

  /** In every run a pointer event is withheld from the windows exactly if it is an unflagged touch
      of a gesture that was claimed, and otherwise passed on as it is. */
  lemma WithheldExactlyWhen(ms: seq<Monitors>, es: seq<Event>, i: nat)
    requires Trace(ms, es) && i < |es| && es[i].Pointer?
    ensures var p := es[i].event;
            Step(ms[i], es[i]).1 ==
            if p.isTouch && !p.noMonitor && Claimed(ms, es, i, p.deviceId) && !Begins(es[i], p.deviceId) then Withheld else Forwarded(p)
  {
    ClaimedExactly(ms, es, i, es[i].event.deviceId);
  }
}
