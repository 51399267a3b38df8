/** Touch gestures that a monitor may claim: once it does, the gesture is cancelled for the
    windows and the rest of it withheld from them. */
module TouchMonitors {
  import opened Options

  const ACTION_CANCEL := 1
  const ACTION_DOWN := 2
  const ACTION_UP := 4
  const MAX_N_INPUT_MONITORS := 16

  /** The fields of a pointer event that are used. */
  datatype PointerEvent = PointerEvent(id: int, deviceId: int, isTouch: bool, pointers: nat, action: int, noMonitor: bool)

  /** ConsumptionState. */
  datatype Consumption = Consumption(eventIds: set<int>, isMonitorConsumed: bool, lastPointerEvent: Option<PointerEvent>)

  const UNTOUCHED := Consumption({}, false, None)

  /** The touch states by device, and the sessions that monitor. */
  datatype Monitors = Monitors(states: map<int, Consumption>, monitors: set<int>)

  function StateOf(m: Monitors, d: int): Consumption { if d in m.states then m.states[d] else UNTOUCHED }

  /** The first finger going down starts a gesture. */
  predicate StartsGesture(e: PointerEvent) { e.isTouch && !e.noMonitor && e.pointers == 1 && e.action == ACTION_DOWN }

  /** UpdateConsumptionState. */
  function Update(m: Monitors, e: PointerEvent): Monitors {
    if !e.isTouch then m else
    var c := StateOf(m, e.deviceId);
    var noted := c.(eventIds := c.eventIds + {e.id}, lastPointerEvent := Some(e));
    var next :=
      if e.pointers != 1 then noted
      else if e.action == ACTION_DOWN then noted.(eventIds := {e.id}, isMonitorConsumed := false)
      else if e.action == ACTION_UP then noted.(eventIds := {})
      else noted;
    m.(states := m.states[e.deviceId := next])
  }

  /** The first device, in the order the map happens to be walked, that knows the event id. */
  function FindDevice(m: Monitors, order: seq<int>, id: int): Option<int> {
    if order == [] then None
    else if order[0] in m.states && id in m.states[order[0]].eventIds then Some(order[0])
    else FindDevice(m, order[1..], id)
  }

  /** MarkConsumed: the new state and the CANCEL event sent out, if any. */
  function Mark(m: Monitors, order: seq<int>, id: int, session: int, freshId: int): (Monitors, Option<PointerEvent>) {
    if session !in m.monitors then (m, None) else
    match FindDevice(m, order, id)
    case None => (m, None)
    case Some(d) =>
      var c := StateOf(m, d);
      if c.isMonitorConsumed then (m, None) else
      (m.(states := m.states[d := c.(isMonitorConsumed := true)]),
       if c.lastPointerEvent.None? then None
       else Some(c.lastPointerEvent.value.(action := ACTION_CANCEL, id := freshId, noMonitor := true)))
  }

  datatype Event =
    | Pointer(event: PointerEvent)
    | MarkConsumed(order: seq<int>, id: int, session: int, freshId: int)
    | AddMonitor(session: int)
    | RemoveMonitor(session: int)

  /** What the next handler sees of an event. */
  datatype Output = Forwarded(event: PointerEvent) | Withheld | Cancelled(event: PointerEvent) | Quiet

  function Step(m: Monitors, e: Event): (Monitors, Output) {
    match e
    case Pointer(p) =>
      if p.noMonitor then (m, Forwarded(p)) else
      var m1 := Update(m, p);
      (m1, if p.isTouch && StateOf(m1, p.deviceId).isMonitorConsumed then Withheld else Forwarded(p))
    case MarkConsumed(order, id, session, freshId) =>
      var (m1, c) := Mark(m, order, id, session, freshId);
      (m1, if c.Some? then Cancelled(c.value) else Quiet)
    case AddMonitor(session) =>
      (if |m.monitors| >= MAX_N_INPUT_MONITORS then m else m.(monitors := m.monitors + {session}), Quiet)
    case RemoveMonitor(session) => (m.(monitors := m.monitors - {session}), Quiet)
  }

  function Run(m: Monitors, es: seq<Event>): Monitors
    decreases |es|
  {
    if es == [] then m else Step(Run(m, es[..|es| - 1]), es[|es| - 1]).0
  }

  /** What event number `i` of a run puts out. */
  function OutputAt(m: Monitors, es: seq<Event>, i: nat): Output
    requires i < |es|
  {
    Step(Run(m, es[..i]), es[i]).1
  }

  // ---------- a claimed gesture stays claimed ----------

  /** What is stored for a device is an event of that device. */
  ghost predicate Inv(m: Monitors) {
    forall d | d in m.states :: m.states[d].lastPointerEvent.Some? ==>
      m.states[d].lastPointerEvent.value.deviceId == d && m.states[d].lastPointerEvent.value.isTouch
  }

  lemma {:induction false} FindDeviceKnows(m: Monitors, order: seq<int>, id: int)
    ensures FindDevice(m, order, id).Some? ==>
              FindDevice(m, order, id).value in m.states && id in m.states[FindDevice(m, order, id).value].eventIds
    ensures (exists i :: 0 <= i < |order| && order[i] in m.states && id in m.states[order[i]].eventIds)
            ==> FindDevice(m, order, id).Some?
  {
    if order != [] {
      FindDeviceKnows(m, order[1..], id);
      forall i | 0 < i < |order| ensures order[i] == order[1..][i - 1] {}
    }
  }

  lemma StepKeepsInv(m: Monitors, e: Event)
    requires Inv(m)
    ensures Inv(Step(m, e).0)
  {
    if e.MarkConsumed? { FindDeviceKnows(m, e.order, e.id); }
  }

  lemma {:induction false} RunKeepsInv(m: Monitors, es: seq<Event>)
    requires Inv(m)
    ensures Inv(Run(m, es))
    decreases |es|
  {
    if es != [] { RunKeepsInv(m, es[..|es| - 1]); StepKeepsInv(Run(m, es[..|es| - 1]), es[|es| - 1]); }
  }

  /** Only the start of a new gesture of the device undoes a claim. */
  lemma ClaimStays(m: Monitors, e: Event, d: int)
    requires StateOf(m, d).isMonitorConsumed
    requires !(e.Pointer? && StartsGesture(e.event) && e.event.deviceId == d)
    ensures StateOf(Step(m, e).0, d).isMonitorConsumed
  {
  }

  lemma {:induction false} ClaimStaysOverRun(m: Monitors, es: seq<Event>, d: int, i: nat, j: nat)
    requires i <= j <= |es| && StateOf(Run(m, es[..i]), d).isMonitorConsumed
    requires forall k | i <= k < j :: !(es[k].Pointer? && StartsGesture(es[k].event) && es[k].event.deviceId == d)
    ensures StateOf(Run(m, es[..j]), d).isMonitorConsumed
    decreases j
  {
    if i < j {
      ClaimStaysOverRun(m, es, d, i, j - 1);
      assert es[..j][..j - 1] == es[..j - 1] && es[..j][j - 1] == es[j - 1];
      ClaimStays(Run(m, es[..j - 1]), es[j - 1], d);
    }
  }

  /** In every run, after a device's gesture was cancelled and until its next gesture starts,
      no further CANCEL is sent for the device and no unflagged touch event of it goes on to
      the windows. */
  lemma CancelledOncePerGesture(m: Monitors, es: seq<Event>, i: nat, j: nat)
    requires Inv(m) && i < j < |es| && OutputAt(m, es, i).Cancelled?
    requires var d := OutputAt(m, es, i).event.deviceId;
             forall k | i < k <= j :: !(es[k].Pointer? && StartsGesture(es[k].event) && es[k].event.deviceId == d)
    ensures var d := OutputAt(m, es, i).event.deviceId;
            var o := OutputAt(m, es, j);
            && !(o.Cancelled? && o.event.deviceId == d)
            && !(o.Forwarded? && o.event.deviceId == d && o.event.isTouch && !o.event.noMonitor)
  {
    var d := OutputAt(m, es, i).event.deviceId;
    RunKeepsInv(m, es[..i]);
    RunKeepsInv(m, es[..j]);
    var before := Run(m, es[..i]);
    FindDeviceKnows(before, es[i].order, es[i].id);
    assert es[..i + 1][..i] == es[..i] && es[..i + 1][i] == es[i];
    assert StateOf(Run(m, es[..i + 1]), d).isMonitorConsumed;
    ClaimStaysOverRun(m, es, d, i + 1, j);
    if es[j].MarkConsumed? { FindDeviceKnows(Run(m, es[..j]), es[j].order, es[j].id); }
    if es[j].Pointer? { ClaimStays(Run(m, es[..j]), es[j], d); }
  }

  // ---------- with fresh event ids a claim means one device ----------

  /** Every event id is known to one device at most, and was used before. */
  ghost predicate IdsApart(m: Monitors, used: set<int>) {
    && (forall d | d in m.states :: m.states[d].eventIds <= used)
    && (forall c, d | c in m.states && d in m.states && c != d :: m.states[c].eventIds !! m.states[d].eventIds)
  }

  function UsedBy(es: seq<Event>): set<int> {
    set i | 0 <= i < |es| && es[i].Pointer? && !es[i].event.noMonitor :: es[i].event.id
  }

  ghost predicate FreshIds(es: seq<Event>) {
    forall i, j | 0 <= i < j < |es| && es[i].Pointer? && es[j].Pointer?
                  && !es[i].event.noMonitor && !es[j].event.noMonitor :: es[i].event.id != es[j].event.id
  }

  lemma StepKeepsApart(m: Monitors, e: Event, used: set<int>)
    requires IdsApart(m, used)
    requires e.Pointer? && !e.event.noMonitor ==> e.event.id !in used
    ensures IdsApart(Step(m, e).0, if e.Pointer? && !e.event.noMonitor then used + {e.event.id} else used)
  {
    if e.MarkConsumed? { FindDeviceKnows(m, e.order, e.id); }
  }

  lemma {:induction false} RunKeepsApart(m: Monitors, es: seq<Event>)
    requires m.states == map[] && FreshIds(es)
    ensures IdsApart(Run(m, es), UsedBy(es))
    decreases |es|
  {
    if es != [] {
      var n := |es| - 1;
      var before := es[..n];
      assert FreshIds(before) by { assert forall i | 0 <= i < n :: before[i] == es[i]; }
      RunKeepsApart(m, before);
      var e := es[n];
      forall i | 0 <= i < n && es[i].Pointer? && !es[i].event.noMonitor && e.Pointer? && !e.event.noMonitor
        ensures es[i].event.id != e.event.id {}
      assert e.Pointer? && !e.event.noMonitor ==> e.event.id !in UsedBy(before) by {
        assert forall i | 0 <= i < n :: before[i] == es[i];
      }
      StepKeepsApart(Run(m, before), e, UsedBy(before));
      assert UsedBy(before) <= UsedBy(es) by {
        forall x | x in UsedBy(before) ensures x in UsedBy(es) {
          var i :| 0 <= i < n && before[i].Pointer? && !before[i].event.noMonitor && before[i].event.id == x;
          assert es[i] == before[i];
        }
      }
      assert e.Pointer? && !e.event.noMonitor ==> e.event.id in UsedBy(es);
    }
  }

  ghost predicate Walks(m: Monitors, order: seq<int>) { forall d :: d in order <==> d in m.states }

  lemma FoundIfKnown(m: Monitors, order: seq<int>, id: int, d: int)
    requires Walks(m, order) && d in m.states && id in m.states[d].eventIds
    ensures FindDevice(m, order, id).Some?
  {
    FindDeviceKnows(m, order, id);
    assert d in order;
    var i :| 0 <= i < |order| && order[i] == d;
  }

  lemma SameDevice(m: Monitors, used: set<int>, order: seq<int>, order': seq<int>, id: int)
    requires IdsApart(m, used) && Walks(m, order) && Walks(m, order')
    ensures FindDevice(m, order, id) == FindDevice(m, order', id)
  {
    FindDeviceKnows(m, order, id);
    FindDeviceKnows(m, order', id);
    var x, y := FindDevice(m, order, id), FindDevice(m, order', id);
    if x.Some? { FoundIfKnown(m, order', id, x.value); }
    if y.Some? { FoundIfKnown(m, order, id, y.value); }
    if x.Some? && y.Some? {
      var c, d := x.value, y.value;
      assert id in m.states[c].eventIds && id in m.states[d].eventIds;
    }
  }

  /** With fresh event ids, in every run a MarkConsumed changes at most one device, the one that
      saw the event, in whatever order the device map is walked. */
  lemma MarkMeansOneDevice(m: Monitors, es: seq<Event>, order: seq<int>, order': seq<int>, id: int, session: int, newId: int, d: int)
    requires m.states == map[] && FreshIds(es) && Walks(Run(m, es), order) && Walks(Run(m, es), order')
    ensures var r := Run(m, es);
            var after := Mark(r, order, id, session, newId);
            && after == Mark(r, order', id, session, newId)
            && (StateOf(after.0, d) != StateOf(r, d) ==> id in StateOf(r, d).eventIds)
            && forall c | c != d && id in StateOf(r, d).eventIds :: StateOf(after.0, c) == StateOf(r, c)
  {
    RunKeepsApart(m, es);
    var r := Run(m, es);
    SameDevice(r, UsedBy(es), order, order', id);
    FindDeviceKnows(r, order, id);
    var x := FindDevice(r, order, id);
    if x.Some? && d in r.states && x.value != d {
      assert r.states[x.value].eventIds !! r.states[d].eventIds;
    }
  }

  /** MonitorCollection with its device map and monitor set changed in place. */
  class MonitorCollection {
    var states: map<int, Consumption>
    var monitors: set<int>

    function View(): Monitors
      reads this
    {
      Monitors(states, monitors)
    }

    constructor ()
      ensures View() == Monitors(map[], {})
    {
      states, monitors := map[], {};
    }

    method UpdateConsumptionState(e: PointerEvent)
      modifies this
      ensures View() == Update(old(View()), e)
    {
      if !e.isTouch {
        return;
      }
      if e.deviceId !in states {
        states := states[e.deviceId := UNTOUCHED];
      }
      var state := states[e.deviceId];
      state := state.(eventIds := state.eventIds + {e.id}, lastPointerEvent := Some(e));
      if e.pointers == 1 {
        if e.action == ACTION_DOWN {
          state := state.(eventIds := {e.id}, isMonitorConsumed := false);
        } else if e.action == ACTION_UP {
          state := state.(eventIds := {});
        }
      }
      states := states[e.deviceId := state];
    }

    /** HandleEvent for an event that is not flagged; true means it stops here. */
    method HandleEvent(e: PointerEvent) returns (consumed: bool)
      requires !e.noMonitor
      modifies this
      ensures View() == Step(old(View()), Pointer(e)).0
      ensures consumed <==> Step(old(View()), Pointer(e)).1.Withheld?
    {
      UpdateConsumptionState(e);
      consumed := e.isTouch && e.deviceId in states && states[e.deviceId].isMonitorConsumed;
    }

    /** MarkConsumed, walking the device map in the given order. */
    method MarkConsumed(order: seq<int>, id: int, session: int, freshId: int) returns (cancel: Option<PointerEvent>)
      modifies this
      ensures (View(), cancel) == Mark(old(View()), order, id, session, freshId)
    {
      if session !in monitors {
        return None;
      }
      var n := 0;
      while n < |order| && !(order[n] in states && id in states[order[n]].eventIds)
        invariant n <= |order|
        invariant FindDevice(View(), order[n..], id) == FindDevice(View(), order, id)
      {
        assert order[n..][1..] == order[n + 1..];
        n := n + 1;
      }
      if n == |order| {
        return None;
      }
      assert order[n..][0] == order[n];
      var state := states[order[n]];
      if state.isMonitorConsumed {
        return None;
      }
      states := states[order[n] := state.(isMonitorConsumed := true)];
      if state.lastPointerEvent.None? {
        return None;
      }
      return Some(state.lastPointerEvent.value.(action := ACTION_CANCEL, id := freshId, noMonitor := true));
    }
  }
}
