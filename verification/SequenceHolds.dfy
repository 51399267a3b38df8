/** Which pending sequence launches a key event cancels, and which it can no longer reach.

    A launch can be cancelled while a candidate of the filter holds its timer; a launch whose
    candidate is gone stays until it fires. */
module SequenceHolds {
  import opened Options
  import opened KeyTypes
  import opened TimerList
  import opened Ownership
  import opened KeySequences
  import opened KeyCommands
  import opened EventLoop
  import opened Stages
  import SequenceLaunches
  import Launched = Launches
  import Timers

  function OfSequence(): Item -> bool { (t: Item) => t.callback.LaunchSequence? }

  /** A candidate holds the id of the timer. */
  predicate Held(filter: seq<Candidate>, t: Item) { exists i :: 0 <= i < |filter| && filter[i].timerId == t.id }

  /** The event continues the history: it comes in time after the last entry and is no repeat. */
  predicate Continues(m: Matcher, e: KeyEvent) {
    && m.sequences != [] && m.keys != []
    && 0 <= e.actionTime - m.keys[|m.keys| - 1].time <= MAX_DELAY_TIME
    && !Repeats(Told(m.keys), Entry(e).stroke)
  }

  /** The event comes too late after the last entry, or before it, and drops the history. */
  predicate DropsHistory(m: Matcher, e: KeyEvent) {
    && m.sequences != [] && m.keys != []
    && !(0 <= e.actionTime - m.keys[|m.keys| - 1].time <= MAX_DELAY_TIME)
  }

  // ---------- what an event cancels ----------

  lemma {:induction false} InterruptCancels(filter: seq<Candidate>, s: Timetable, t: Item)
    requires Timers.Inv(s) && t in s.items
    ensures t in Interrupt(filter, s).1.items <==> !Held(filter, t)
    ensures forall x | x in Interrupt(filter, s).1.items :: x in s.items
    decreases |filter|
  {
    if filter != [] {
      var id := filter[0].timerId;
      var s1 := if id >= 0 then Timers.Remove(s, id) else s;
      Timers.RemoveKeepsInv(s, id);
      Timers.RemoveMeans(s, id, 0);
      assert Timers.ItemOk(s, t);
      if t in s1.items { InterruptCancels(filter[1..], s1, t); } else { InterruptOnlyRemoves(filter[1..], s1); }
      HeldCons(filter, t);
      InterruptOnlyRemoves(filter[1..], s1);
    }
  }

  lemma HeldCons(filter: seq<Candidate>, t: Item)
    requires filter != []
    ensures Held(filter, t) <==> filter[0].timerId == t.id || Held(filter[1..], t)
  {
    if Held(filter, t) && filter[0].timerId != t.id {
      var i :| 0 <= i < |filter| && filter[i].timerId == t.id;
      assert filter[1..][i - 1] == filter[i];
    }
    if Held(filter[1..], t) {
      var i :| 0 <= i < |filter[1..]| && filter[1..][i].timerId == t.id;
      assert filter[i + 1] == filter[1..][i];
    }
  }

  lemma {:induction false} InterruptOnlyRemoves(filter: seq<Candidate>, s: Timetable)
    requires Timers.Inv(s)
    ensures forall x | x in Interrupt(filter, s).1.items :: x in s.items
    decreases |filter|
  {
    if filter != [] {
      var id := filter[0].timerId;
      var s1 := if id >= 0 then Timers.Remove(s, id) else s;
      Timers.RemoveKeepsInv(s, id);
      Timers.RemoveMeans(s, id, 0);
      InterruptOnlyRemoves(filter[1..], s1);
    }
  }

  lemma RecordCancels(m: Matcher, s: Timetable, e: KeyEvent, t: Item)
    requires Timers.Inv(s) && t in s.items && m.sequences != []
    ensures t in Record(m, s, e).1.items <==> !(Continues(m, e) && Held(m.filter, t))
  {
    InterruptCancels(m.filter, s, t);
  }

  lemma PressCancels(m: Matcher, s: Timetable, e: KeyEvent, ticks: seq<nat>, t: Item)
    requires Timers.Inv(s) && t in s.items && FilterOk(m)
    ensures t in Press(m, s, e, ticks).1.items <==> !(Continues(m, e) && Held(m.filter, t))
  {
    if m.sequences != [] {
      var (m1, s1, recorded) := Record(m, s, e);
      RecordCancels(m, s, e, t);
      SequenceLaunches.PressInv(m, s, e, ticks);
      if recorded {
        SequenceLaunches.ScanArms(Candidates(m1), m1.keys, s1, ticks, 0);
        InterruptKeepsSerial(m.filter, s);
        if t !in s1.items { GoneStaysGone(m1, s, s1, ticks, t); }
      }
    }
  }

  /** What the scan adds is new. */
  lemma GoneStaysGone(m1: Matcher, s: Timetable, s1: Timetable, ticks: seq<nat>, t: Item)
    requires Timers.Inv(s) && Timers.Inv(s1) && t in s.items && t !in s1.items && s1.serial >= s.serial
    ensures t !in Scan(Candidates(m1), m1.keys, s1, ticks, 0).sched.items
  {
    assert Timers.ItemOk(s, t);
    ScanAddsLater(Candidates(m1), m1.keys, s1, ticks, 0, t);
  }

  lemma {:induction false} ScanAddsLater(cs: seq<Candidate>, keys: seq<Pressed>, s: Timetable, ticks: seq<nat>, i: nat, t: Item)
    requires Timers.Inv(s) && t !in s.items && t.stamp < s.serial
    ensures t !in Scan(cs, keys, s, ticks, i).sched.items
    decreases |cs|
  {
    if cs != [] {
      var (c, stays, launches, s1) := Attempt(cs[0], keys, s, Tick(ticks, i));
      SequenceLaunches.AttemptArms(cs[0], keys, s, Tick(ticks, i));
      AttemptAddsLater(cs[0], keys, s, Tick(ticks, i), t);
      ScanAddsLater(cs[1..], keys, s1, ticks, i + 1, t);
    }
  }

  lemma AttemptAddsLater(c: Candidate, keys: seq<Pressed>, s: Timetable, tick: nat, t: Item)
    requires Timers.Inv(s) && t !in s.items && t.stamp < s.serial
    ensures var r := Attempt(c, keys, s, tick).3;
            t !in r.items && r.serial >= s.serial
  {
    if Completed(keys, c.sequence) {
      var interval := c.sequence.abilityStartDelay / SECONDS_SYSTEM;
      AddOnly(s, interval, LaunchSequence(c.sequence), tick);
      InsertMembers(s.items, NewItem(s, interval, LaunchSequence(c.sequence), tick));
    }
  }

  lemma {:induction false} InterruptKeepsSerial(filter: seq<Candidate>, s: Timetable)
    ensures Interrupt(filter, s).1.serial == s.serial
    decreases |filter|
  {
    if filter != [] {
      InterruptKeepsSerial(filter[1..], if filter[0].timerId >= 0 then Timers.Remove(s, filter[0].timerId) else s);
    }
  }

  lemma BeforeSequences(w: World, e: KeyEvent, ticks: Ticks, t: Item)
    requires WorldOk(w) && t.callback.LaunchSequence?
    ensures var w1 := AfterShortcuts(w, e, ticks);
            WorldOk(w1) && w1.k.matcher == w.k.matcher && (t in w1.s.items <==> t in w.s.items)
  {
    ShortKeysOk(w, e, ticks.shortcut);
    ShortKeysLeave(w, e, ticks.shortcut, OfSequence());
    SameMember(w.s.items, AfterShortcuts(w, e, ticks).s.items, t);
  }

  lemma AfterPress(w: World, e: KeyEvent, ticks: Ticks, t: Item)
    requires WorldOk(w) && WorldOk(AfterShortcuts(w, e, ticks)) && t.callback.LaunchSequence?
    ensures var w1 := AfterShortcuts(w, e, ticks);
            t in OnKeyEvent(w, e, ticks).s.items <==> t in Press(w1.k.matcher, w1.s, e, ticks.sequences).1.items
  {
    var w1 := AfterShortcuts(w, e, ticks);
    SequencesLeave(w1, e, ticks.sequences, OfSequence());
    LaterStagesLeave(w, e, ticks, OfSequence());
    SameMember(Press(w1.k.matcher, w1.s, e, ticks.sequences).1.items, OnKeyEvent(w, e, ticks).s.items, t);
  }

  /** A key event cancels a pending sequence launch exactly if it continues the history and a
      candidate still holds the launch's timer. */
  lemma KeyCancels(w: World, e: KeyEvent, ticks: Ticks, t: Item)
    requires WorldOk(w) && t in w.s.items && t.callback.LaunchSequence?
    ensures t in OnKeyEvent(w, e, ticks).s.items <==> !(Continues(w.k.matcher, e) && Held(w.k.matcher.filter, t))
  {
    var w1 := AfterShortcuts(w, e, ticks);
    BeforeSequences(w, e, ticks, t);
    PressCancels(w1.k.matcher, w1.s, e, ticks.sequences, t);
    AfterPress(w, e, ticks, t);
  }

  lemma SameMember(l: seq<Item>, r: seq<Item>, t: Item)
    requires Keep(l, OfSequence()) == Keep(r, OfSequence()) && t.callback.LaunchSequence?
    ensures t in l <==> t in r
  {
    KeepMembers(l, OfSequence());
    KeepMembers(r, OfSequence());
  }

  // ---------- launches out of reach ----------

  /** A launch is pending that no candidate holds. */
  predicate Orphan(w: World, t: Item) { t in w.s.items && t.callback.LaunchSequence? && !Held(w.k.matcher.filter, t) }

  /** The event fires the launch itself. */
  predicate Launches(w: World, e: Event, t: Item) { e.Fire? && Fires(w, e.now) && w.s.items[0] == t }

  /** What the filter holds after an event was held before, or is new. */
  lemma PressHolds(m: Matcher, s: Timetable, e: KeyEvent, ticks: seq<nat>, t: Item)
    requires Timers.Inv(s) && SequencesOk(m.filter, s) && FilterOk(m) && (m.sequences != [] ==> t in Record(m, s, e).1.items)
    requires Held(Press(m, s, e, ticks).0.filter, t)
    ensures Held(m.filter, t) && !DropsHistory(m, e) && !Continues(m, e)
  {
    if m.sequences != [] {
      var (m1, s1, recorded) := Record(m, s, e);
      RecordOk(m, s, e);
      if recorded {
        FreshUnarmed(m.sequences);
        ScanOk(Candidates(m1), m1.keys, s1, ticks, 0);
        NewlyArmedNotHeld(Press(m, s, e, ticks).0.filter, s1, Scan(Candidates(m1), m1.keys, s1, ticks, 0).sched, t);
      } else if Continues(m, e) {
        InterruptOk(m.filter, s);
        Unheld(m1.filter, s1, t);
      }
    }
  }

  lemma Unheld(filter: seq<Candidate>, s: Timetable, t: Item)
    requires Timers.Inv(s) && t in s.items && forall c | c in filter :: c.timerId == -1
    ensures !Held(filter, t)
  {
    assert Timers.ItemOk(s, t);
    forall i | 0 <= i < |filter| ensures filter[i].timerId != t.id { assert filter[i] in filter; }
  }

  lemma NewlyArmedNotHeld(filter: seq<Candidate>, s: Timetable, r: Timetable, t: Item)
    requires Timers.Inv(s) && t in s.items && NewlyArmed(filter, s, r)
    ensures !Held(filter, t)
  {
    assert Timers.ItemOk(s, t);
    var k :| 0 <= k < |s.items| && s.items[k] == t;
    assert HasId(s.items, t.id);
    forall i | 0 <= i < |filter| ensures filter[i].timerId != t.id { assert filter[i] in filter; }
  }

  lemma KeyLeavesFilter(w: World, e: KeyEvent, ticks: Ticks)
    ensures var w1 := AfterShortcuts(w, e, ticks);
            OnKeyEvent(w, e, ticks).k.matcher == Press(w1.k.matcher, w1.s, e, ticks.sequences).0 && w1.k.matcher == w.k.matcher
  {
    var w1 := AfterShortcuts(w, e, ticks);
    SequencesMatcher(w1, e, ticks.sequences);
    var byShortcut := ShortKeys(w.k, w.s, e, ticks.shortcut).2;
    var (w2, bySequence) := Sequences(w1, e, ticks.sequences);
    RestMatcher(w2, e, byShortcut || bySequence, ticks.delay);
  }

  lemma SequencesMatcher(w: World, e: KeyEvent, ticks: seq<nat>)
    ensures Sequences(w, e, ticks).0.k.matcher == Press(w.k.matcher, w.s, e, ticks).0
  {
    var (m, s, launched) := Press(w.k.matcher, w.s, e, ticks);
    Launched.ConsumeKeepsMatcher(World(w.k.(matcher := m), w.h, s), m.keys);
  }

  lemma RestMatcher(w: World, e: KeyEvent, handled: bool, tick: nat)
    ensures Rest(w, e, handled, tick).0.k.matcher == w.k.matcher
  {
  }

  /** Of the launches pending after an event, the filter holds those it held before, if the event
      neither continues nor drops the history, and only them. */
  lemma KeyHolds(w: World, e: KeyEvent, ticks: Ticks, t: Item)
    requires WorldOk(w) && t in w.s.items && t.callback.LaunchSequence? && t in OnKeyEvent(w, e, ticks).s.items
    ensures Held(OnKeyEvent(w, e, ticks).k.matcher.filter, t) <==> Held(w.k.matcher.filter, t) && !DropsHistory(w.k.matcher, e)
  {
    var w1 := AfterShortcuts(w, e, ticks);
    var m := w.k.matcher;
    KeyLeavesFilter(w, e, ticks);
    KeyCancels(w, e, ticks, t);
    BeforeSequences(w, e, ticks, t);
    if m.sequences != [] { RecordCancels(m, w1.s, e, t); }
    if Held(Press(m, w1.s, e, ticks.sequences).0.filter, t) { PressHolds(m, w1.s, e, ticks.sequences, t); }
  }

  lemma FireKeepsLaunch(w: World, e: Event, t: Item)
    requires WorldOk(w) && e.Fire? && t in w.s.items && t.callback.LaunchSequence? && !Launches(w, e, t)
    ensures t in Step(w, e).s.items
  {
    if Fires(w, e.now) {
      KeepMembers(w.s.items, OfSequence());
      KeepMembers(Step(w, e).s.items, OfSequence());
      assert w.s.items[0] in w.s.items && OneShot(w.s.items[0]);
      if w.s.items[0].callback.LaunchSequence? {
        FireTakesFirst(w, e.now, e.subscriberTicks, OfSequence());
      } else {
        FireLeavesOthers(w, e.now, e.subscriberTicks, OfSequence());
      }
    }
  }

  lemma FireLeavesFilter(w: World, e: Event)
    requires WorldOk(w) && e.Fire?
    ensures Step(w, e).k.matcher.filter ==
              if Fires(w, e.now) && w.s.items[0].callback.LaunchSequence? then [] else w.k.matcher.filter
  {
    if Fires(w, e.now) {
      assert w.s.items[0] in w.s.items && OneShot(w.s.items[0]) && Timers.ItemOk(w.s, w.s.items[0]);
    }
  }

  /** A launch that no candidate holds leaves the list only by firing: no key event cancels it,
      now or later. */
  lemma OrphanStays(w: World, e: Event, t: Item)
    requires WorldOk(w) && Orphan(w, t) && !Launches(w, e, t)
    ensures Orphan(Step(w, e), t)
  {
    if e.Key? {
      KeyCancels(w, e.event, e.ticks, t);
      KeyHolds(w, e.event, e.ticks, t);
    } else if e.Fire? {
      FireKeepsLaunch(w, e, t);
      FireLeavesFilter(w, e);
    } else {
      OtherStepLeaves(w, e, OfSequence());
      SameMember(w.s.items, Step(w, e).s.items, t);
    }
  }

  /** A launch that a candidate holds becomes one that none holds exactly by an event that drops the
      history, or by the launch of another sequence. */
  lemma OrphanedBy(w: World, e: Event, t: Item)
    requires WorldOk(w) && t in w.s.items && t.callback.LaunchSequence? && Held(w.k.matcher.filter, t)
    ensures Orphan(Step(w, e), t) <==>
              || (e.Key? && DropsHistory(w.k.matcher, e.event))
              || (e.Fire? && Fires(w, e.now) && w.s.items[0].callback.LaunchSequence? && w.s.items[0] != t)
  {
    if e.Key? {
      KeyCancels(w, e.event, e.ticks, t);
      if t in Step(w, e).s.items { KeyHolds(w, e.event, e.ticks, t); }
    } else if e.Fire? {
      FireLeavesFilter(w, e);
      if Launches(w, e, t) { FiredIsGone(w, e, t); } else { FireKeepsLaunch(w, e, t); }
    }
  }

  lemma FiredIsGone(w: World, e: Event, t: Item)
    requires WorldOk(w) && t.callback.LaunchSequence? && Launches(w, e, t)
    ensures t !in Step(w, e).s.items
  {
    assert t in w.s.items && OneShot(t);
    FireTakesFirst(w, e.now, e.subscriberTicks, OfSequence());
    KeepOrdered(w.s.items, OfSequence());
    KeepMembers(Step(w, e).s.items, OfSequence());
    var rest := Keep(Step(w, e).s.items, OfSequence());
    assert Keep(w.s.items, OfSequence())[1..] == rest;
  }

  /** In every run such a launch, once out of reach, is pending until it fires. */
  lemma {:induction false} OrphanOnlyFires(ws: seq<World>, es: seq<Event>, i: nat, j: nat, t: Item)
    requires Trace(ws, es) && i <= j <= |es| && Orphan(ws[i], t)
    requires forall n | i <= n < j :: !Launches(ws[n], es[n], t)
    ensures Orphan(ws[j], t)
    decreases j
  {
    if i < j {
      OrphanOnlyFires(ws, es, i, j - 1, t);
      TraceOk(ws, es, j - 1);
      OrphanStays(ws[j - 1], es[j - 1], t);
    }
  }

  // ---------- a run that loses hold of a launch ----------

  /** A service that has just started, with one sequence configured. */
  function OneSequence(q: Sequence): World {
    World(KeyCommand([], Matcher([q], [], []), ShortcutKey({}, -1, 0, ACTION_DOWN, ""), -1, {}, map[], []), Subscribers.EMPTY, Timers.Initial(0))
  }

  /** The sequence is one stroke, that of the event. */
  predicate IsStroke(q: Sequence, e: KeyEvent) { |q.sequenceKeys| == 1 && q.sequenceKeys[0].stroke == Stroke(e.keyCode, e.action) }

  function FirstLaunch(q: Sequence): Item {
    NewItem(Timers.Initial(0), q.abilityStartDelay / SECONDS_SYSTEM, LaunchSequence(q), 0)
  }

  lemma FirstAttempt(q: Sequence, e: KeyEvent)
    requires IsStroke(q, e)
    ensures var (c, stays, launches, r) := Attempt(Candidate(q, -1), [Entry(e)], Timers.Initial(0), 0);
            c == Candidate(q, 0) && stays && launches && r.items == [FirstLaunch(q)]
    ensures FirstLaunch(q).id == 0
  {
    assert Timers.LeastFree(Timers.Initial<Callback>(0).items, 0);
    assert Completed([Entry(e)], q);
  }

  lemma FirstPress(q: Sequence, e: KeyEvent)
    requires IsStroke(q, e)
    ensures var (m, s, launched) := Press(Matcher([q], [], []), Timers.Initial(0), e, []);
            m == Matcher([q], [Entry(e)], [Candidate(q, 0)]) && FirstLaunch(q) in s.items
  {
    FirstAttempt(q, e);
    var cs := [Candidate(q, -1)];
    assert Fresh([q]) == cs && cs[1..] == [];
    var (c, stays, launches, r) := Attempt(cs[0], [Entry(e)], Timers.Initial(0), Tick([], 0));
    assert Scan(cs[1..], [Entry(e)], r, [], 1) == Scanned([], [], false, r);
  }

  /** The launch of a one-stroke sequence is pending and held after its stroke, and after any key
      that comes more than MAX_DELAY_TIME later it is pending and out of reach. */
  lemma PauseOrphans(q: Sequence, e: KeyEvent, late: KeyEvent, ticks: Ticks)
    requires IsStroke(q, e) && late.actionTime - e.actionTime > MAX_DELAY_TIME
    ensures var w1 := OnKeyEvent(OneSequence(q), e, Ticks(0, [], 0, []));
            && FirstLaunch(q) in w1.s.items && Held(w1.k.matcher.filter, FirstLaunch(q))
            && Orphan(OnKeyEvent(w1, late, ticks), FirstLaunch(q))
  {
    var w0 := OneSequence(q);
    var first := Ticks(0, [], 0, []);
    var w1 := OnKeyEvent(w0, e, first);
    var t := FirstLaunch(q);
    StartedOk(w0);
    FirstPress(q, e);
    FirstAttempt(q, e);
    assert AfterShortcuts(w0, e, first) == w0;
    AfterPress(w0, e, first, t);
    KeyLeavesFilter(w0, e, first);
    assert w1.k.matcher.filter[0].timerId == t.id;
    StepOk(w0, Key(e, first));
    OrphanedBy(w1, Key(late, ticks), t);
  }
}
