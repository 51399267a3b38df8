/** In every run a sequence launch is armed only by the last of events that spell the sequence. */
module SequenceEntries {
  import opened KeyTypes
  import opened TimerList
  import opened Ownership
  import opened KeySequences
  import opened KeyCommands
  import opened EventLoop
  import opened Stages
  import opened SequenceHolds
  import SequenceLaunches
  import Timers

  /** The entries of the history come from the events numbered `idx`, in that order, before `n`. */
  predicate Recalls(es: seq<Event>, keys: seq<Pressed>, idx: seq<nat>, n: nat) {
    && |idx| == |keys| && Numbers(es, idx, n)
    && forall i | 0 <= i < |idx| ::
         && keys[i].stroke == StrokeOf(es[idx[i]]) && keys[i].time == es[idx[i]].event.actionTime
  }

  /** `idx` are numbers of key events before `n`, in ascending order. */
  predicate Numbers(es: seq<Event>, idx: seq<nat>, n: nat) {
    && n <= |es|
    && (forall i | 0 <= i < |idx| :: idx[i] < n && es[idx[i]].Key?)
    && (forall i, j | 0 <= i < j < |idx| :: idx[i] < idx[j])
  }

  function StrokeOf(e: Event): Stroke
    requires e.Key?
  {
    Stroke(e.event.keyCode, e.event.action)
  }

  /** The numbers of the events recalled once event `n` is recorded, passed over, or drops the history. */
  function Renumbered(m: Matcher, s: Timetable, e: KeyEvent, idx: seq<nat>, n: nat): seq<nat> {
    var (m1, _, recorded) := Record(m, s, e);
    var kept := if m1.keys == [] || (recorded && |m1.keys| == 1) then [] else idx;
    if recorded then kept + [n] else kept
  }

  lemma RecordRecalls(m: Matcher, s: Timetable, es: seq<Event>, idx: seq<nat>, n: nat)
    requires n < |es| && es[n].Key? && Recalls(es, m.keys, idx, n)
    ensures var next := Renumbered(m, s, es[n].event, idx, n);
            && Recalls(es, Record(m, s, es[n].event).0.keys, next, n + 1)
            && (Record(m, s, es[n].event).2 ==> next != [] && next[|next| - 1] == n)
  {
    RecordMeans(m, s, es[n].event);
    var keys, next := Record(m, s, es[n].event).0.keys, Renumbered(m, s, es[n].event, idx, n);
    assert Numbers(es, next, n + 1);
    forall i | 0 <= i < |next| ensures keys[i].stroke == StrokeOf(es[next[i]]) && keys[i].time == es[next[i]].event.actionTime {
      if i < |next| - 1 || next == idx { assert next[i] == idx[i]; }
    }
  }

  /** The key event `k` repeats the latest event of its key among those numbered `idx`. */
  ghost predicate PassedOver(es: seq<Event>, idx: seq<nat>, n: nat, k: nat)
    requires Numbers(es, idx, n) && k < |es| && es[k].Key?
  {
    exists i :: 0 <= i < |idx| && idx[i] < k && StrokeOf(es[idx[i]]) == StrokeOf(es[k])
                && forall j | i < j < |idx| && idx[j] < k :: es[idx[j]].event.keyCode != es[k].event.keyCode
  }

  /** Since the first of the events numbered `idx` every other key event before `n` was a repeat. */
  ghost predicate NoneBetween(es: seq<Event>, idx: seq<nat>, n: nat)
    requires Numbers(es, idx, n)
  {
    forall k: nat | idx != [] && idx[0] <= k < n && es[k].Key? && k !in idx :: PassedOver(es, idx, n, k)
  }

  lemma PassedOverStill(es: seq<Event>, idx: seq<nat>, n: nat, k: nat)
    requires k < n < |es| && es[k].Key? && es[n].Key? && Numbers(es, idx, n) && PassedOver(es, idx, n, k)
    ensures PassedOver(es, idx + [n], n + 1, k)
  {
    var i :| 0 <= i < |idx| && idx[i] < k && StrokeOf(es[idx[i]]) == StrokeOf(es[k])
             && forall j | i < j < |idx| && idx[j] < k :: es[idx[j]].event.keyCode != es[k].event.keyCode;
    var next := idx + [n];
    assert next[i] == idx[i];
    forall j | i < j < |next| && next[j] < k ensures es[next[j]].event.keyCode != es[k].event.keyCode { assert j < |idx|; }
  }

  /** A repeat of the latest entry of its key. */
  lemma RepeatPassedOver(es: seq<Event>, keys: seq<Pressed>, idx: seq<nat>, n: nat)
    requires n < |es| && es[n].Key? && Recalls(es, keys, idx, n) && LatestSame(keys, StrokeOf(es[n]))
    ensures PassedOver(es, idx, n + 1, n)
  {
    var x := StrokeOf(es[n]);
    var i :| 0 <= i < |keys| && keys[i].stroke == x && forall k | i < k < |keys| :: keys[k].stroke.keyCode != x.keyCode;
    assert idx[i] < n && StrokeOf(es[idx[i]]) == x;
    forall j | i < j < |idx| && idx[j] < n ensures es[idx[j]].event.keyCode != x.keyCode { assert keys[j].stroke.keyCode != x.keyCode; }
  }

  lemma OneMore(es: seq<Event>, idx: seq<nat>, n: nat)
    requires n < |es| && es[n].Key? && Numbers(es, idx, n) && NoneBetween(es, idx, n)
    ensures Numbers(es, idx + [n], n + 1) && NoneBetween(es, idx + [n], n + 1)
  {
    var next := idx + [n];
    assert next[|idx|] == n;
    forall k: nat | next[0] <= k < n + 1 && es[k].Key? && k !in next ensures PassedOver(es, next, n + 1, k) {
      assert k < n && idx != [] && next[0] == idx[0] && k !in idx;
      PassedOverStill(es, idx, n, k);
    }
  }

  lemma StillNone(es: seq<Event>, idx: seq<nat>, n: nat)
    requires n < |es| && Numbers(es, idx, n) && NoneBetween(es, idx, n)
    requires es[n].Key? ==> PassedOver(es, idx, n + 1, n)
    ensures NoneBetween(es, idx, n + 1)
  {
    forall k: nat | idx != [] && idx[0] <= k < n + 1 && es[k].Key? && k !in idx ensures PassedOver(es, idx, n + 1, k) {
      if k < n { assert PassedOver(es, idx, n, k); }
    }
  }

  lemma RecordLeavesNone(m: Matcher, s: Timetable, es: seq<Event>, idx: seq<nat>, n: nat)
    requires n < |es| && es[n].Key? && Recalls(es, m.keys, idx, n) && (|idx| <= 10 ==> NoneBetween(es, idx, n))
    ensures var next := Renumbered(m, s, es[n].event, idx, n);
            Numbers(es, next, n + 1) && (|next| <= 10 || Record(m, s, es[n].event).2 ==> NoneBetween(es, next, n + 1))
  {
    RecordMeans(m, s, es[n].event);
    RecordRecalls(m, s, es, idx, n);
    var next := Renumbered(m, s, es[n].event, idx, n);
    if Record(m, s, es[n].event).2 {
      assert next == [] + [n] || (next == idx + [n] && |idx| <= 10);
      if next == [] + [n] { OneMore(es, [], n); } else { OneMore(es, idx, n); }
    } else if next != [] && |next| <= 10 {
      RepeatPassedOver(es, m.keys, idx, n);
      StillNone(es, idx, n);
    }
  }

  ghost predicate Recalled(es: seq<Event>, m: Matcher, idx: seq<nat>, n: nat) {
    && Recalls(es, m.keys, idx, n) && (|idx| <= 10 ==> NoneBetween(es, idx, n))
    && (m.sequences == [] ==> m.keys == [])
  }

  lemma StepRecalls(w: World, es: seq<Event>, idx: seq<nat>, n: nat) returns (next: seq<nat>)
    requires n < |es| && Recalled(es, w.k.matcher, idx, n)
    ensures Recalled(es, Step(w, es[n]).k.matcher, next, n + 1)
  {
    next := idx;
    if es[n].Key? {
      var w1 := AfterShortcuts(w, es[n].event, es[n].ticks);
      KeyLeavesFilter(w, es[n].event, es[n].ticks);
      if w.k.matcher.sequences != [] {
        RecordRecalls(w.k.matcher, w1.s, es, idx, n);
        RecordLeavesNone(w.k.matcher, w1.s, es, idx, n);
        RecordMeans(w.k.matcher, w1.s, es[n].event);
        next := Renumbered(w.k.matcher, w1.s, es[n].event, idx, n);
      }
    } else {
      OtherStepsKeepKeys(w, es[n]);
      if Step(w, es[n]).k.matcher.keys == [] { next := []; } else if |idx| <= 10 { StillNone(es, idx, n); }
    }
  }

  lemma OtherStepsKeepKeys(w: World, e: Event)
    requires !e.Key?
    ensures Step(w, e).k.matcher.keys == w.k.matcher.keys || Step(w, e).k.matcher.keys == []
    ensures Step(w, e).k.matcher.sequences == w.k.matcher.sequences
  {
  }

  /** A launch ends the history; nothing else but a key event touches it. */
  lemma LaunchEndsHistory(w: World, e: Event)
    requires WorldOk(w) && !e.Key?
    ensures Step(w, e).k.matcher.keys ==
            if e.Fire? && Fires(w, e.now) && w.s.items[0].callback.LaunchSequence? then [] else w.k.matcher.keys
  {
    if e.Fire? && Fires(w, e.now) { assert w.s.items[0] in w.s.items && OneShot(w.s.items[0]); }
  }

  /** In every run the history is made of events of the run, with nothing but repeats in between
      until there are eleven. */
  lemma {:induction false} HistoryIsOfEvents(ws: seq<World>, es: seq<Event>, n: nat) returns (idx: seq<nat>)
    requires Trace(ws, es) && n <= |es|
    ensures Recalled(es, ws[n].k.matcher, idx, n)
  {
    idx := [];
    if n > 0 {
      idx := HistoryIsOfEvents(ws, es, n - 1);
      idx := StepRecalls(ws[n - 1], es, idx, n - 1);
      assert ws[n] == Step(ws[n - 1], es[n - 1]);
    }
  }

  /** The events numbered `idx` are the strokes of `q` in order; between two of them no time goes
      back, at most a second passes, and less than the delay configured for the first, if one is. */
  predicate Spells(es: seq<Event>, idx: seq<nat>, q: Sequence) {
    && |idx| == |q.sequenceKeys| > 0
    && (forall i | 0 <= i < |idx| ::
          idx[i] < |es| && es[idx[i]].Key?
          && Stroke(es[idx[i]].event.keyCode, es[idx[i]].event.action) == q.sequenceKeys[i].stroke)
    && (forall i, j | 0 <= i < j < |idx| :: idx[i] < idx[j])
    && forall i | 0 <= i < |idx| - 1 ::
         var gap := es[idx[i + 1]].event.actionTime - es[idx[i]].event.actionTime;
         0 <= gap <= 1000000 && (q.sequenceKeys[i].delay != 0 ==> gap < q.sequenceKeys[i].delay)
  }

  lemma CompletedSpells(es: seq<Event>, keys: seq<Pressed>, idx: seq<nat>, n: nat, q: Sequence)
    requires Recalls(es, keys, idx, n) && HistoryOk(keys) && keys != [] && Completed(keys, q)
    ensures Spells(es, idx, q)
  {
    forall i | 0 <= i < |idx| - 1
      ensures var gap := es[idx[i + 1]].event.actionTime - es[idx[i]].event.actionTime;
              0 <= gap <= 1000000 && (q.sequenceKeys[i].delay != 0 ==> gap < q.sequenceKeys[i].delay)
    {
      assert keys[i].delay == keys[i + 1].time - keys[i].time;
    }
  }

  /** A launch that a key event arms is of a sequence completed by the history with the event. */
  lemma KeyArms(w: World, e: KeyEvent, ticks: Ticks, t: Item)
    requires WorldOk(w) && t.callback.LaunchSequence? && t !in w.s.items && t in OnKeyEvent(w, e, ticks).s.items
    ensures var w1 := AfterShortcuts(w, e, ticks);
            var (m, s, recorded) := Record(w1.k.matcher, w1.s, e);
            && w1.k.matcher == w.k.matcher && w.k.matcher.sequences != [] && recorded
            && Completed(m.keys, t.callback.sequence) && t.callback.sequence in m.sequences
            && t.nextCallTime - t.interval >= w.s.clock
            && t.interval == Timers.Clamp(t.callback.sequence.abilityStartDelay / SECONDS_SYSTEM)
  {
    var w1 := AfterShortcuts(w, e, ticks);
    BeforeSequences(w, e, ticks, t);
    AfterPress(w, e, ticks, t);
    AfterShortcutsClock(w, e, ticks);
    PressArms(w1.k.matcher, w1.s, e, ticks.sequences, t);
  }

  lemma AfterShortcutsClock(w: World, e: KeyEvent, ticks: Ticks)
    ensures AfterShortcuts(w, e, ticks).s.clock >= w.s.clock
  {
  }

  lemma PressArms(m: Matcher, s: Timetable, e: KeyEvent, ticks: seq<nat>, t: Item)
    requires Timers.Inv(s) && FilterOk(m) && t !in s.items && t in Press(m, s, e, ticks).1.items
    ensures var (m1, s1, recorded) := Record(m, s, e);
            && m.sequences != [] && recorded && SequenceLaunches.NewLaunch(s1, Press(m, s, e, ticks).1, m1.keys, t)
            && t.callback.sequence in m.sequences && s1.clock == s.clock
  {
    var (m1, s1, recorded) := Record(m, s, e);
    RecordOnlyRemoves(m, s, e);
    SequenceLaunches.PressInv(m, s, e, ticks);
    if m.sequences != [] && recorded {
      SequenceLaunches.ScanNew(Candidates(m1), m1.keys, s1, ticks, 0, t);
      FoundIsConfigured(m, s, e, t.callback.sequence);
    }
  }

  lemma RecordOnlyRemoves(m: Matcher, s: Timetable, e: KeyEvent)
    requires Timers.Inv(s)
    ensures Record(m, s, e).1.clock == s.clock && forall t | t in Record(m, s, e).1.items :: t in s.items
  {
    InterruptOnlyRemoves(m.filter, s);
    InterruptClock(m.filter, s);
  }

  lemma FoundIsConfigured(m: Matcher, s: Timetable, e: KeyEvent, q: Sequence)
    requires FilterOk(m) && Record(m, s, e).2
    requires q in Named(Candidates(Record(m, s, e).0)) && Completed(Record(m, s, e).0.keys, q)
    ensures q in m.sequences
  {
    FilterRefinesRescan(m, s, e, []);
    SelectMember(Named(Candidates(Record(m, s, e).0)), CompletedBy(Record(m, s, e).0.keys), q);
    SelectMember(m.sequences, CompletedBy(Record(m, s, e).0.keys), q);
  }

  lemma {:induction false} InterruptClock(filter: seq<Candidate>, s: Timetable)
    ensures Interrupt(filter, s).1.clock == s.clock
    decreases |filter|
  {
    if filter != [] {
      InterruptClock(filter[1..], if filter[0].timerId >= 0 then Timers.Remove(s, filter[0].timerId) else s);
    }
  }

  /** Only key events arm sequence launches. */
  lemma OthersArmNone(w: World, e: Event, t: Item)
    requires WorldOk(w) && !e.Key? && t.callback.LaunchSequence? && t in Step(w, e).s.items
    ensures t in w.s.items
  {
    if e.Fire? {
      if Fires(w, e.now) {
        KeepMembers(w.s.items, OfSequence());
        KeepMembers(Step(w, e).s.items, OfSequence());
        assert w.s.items[0] in w.s.items && OneShot(w.s.items[0]);
        if w.s.items[0].callback.LaunchSequence? {
          FireTakesFirst(w, e.now, e.subscriberTicks, OfSequence());
        } else {
          FireLeavesOthers(w, e.now, e.subscriberTicks, OfSequence());
        }
      }
    } else {
      OtherStepLeaves(w, e, OfSequence());
      SameMember(w.s.items, Step(w, e).s.items, t);
    }
  }

  lemma EntryArms(w: World, es: seq<Event>, n: nat, before: seq<nat>, t: Item) returns (idx: seq<nat>)
    requires WorldOk(w) && n < |es| && es[n].Key? && Recalled(es, w.k.matcher, before, n)
    requires t.callback.LaunchSequence? && t !in w.s.items && t in OnKeyEvent(w, es[n].event, es[n].ticks).s.items
    ensures Spells(es, idx, t.callback.sequence) && idx[|idx| - 1] == n
    ensures Numbers(es, idx, n + 1) && NoneBetween(es, idx, n + 1)
  {
    var e, ticks := es[n].event, es[n].ticks;
    var w1 := AfterShortcuts(w, e, ticks);
    KeyArms(w, e, ticks, t);
    RecordRecalls(w.k.matcher, w1.s, es, before, n);
    RecordLeavesNone(w.k.matcher, w1.s, es, before, n);
    RecordKeepsHistory(w.k.matcher, w1.s, e);
    idx := Renumbered(w.k.matcher, w1.s, e, before, n);
    CompletedSpells(es, Record(w.k.matcher, w1.s, e).0.keys, idx, n + 1, t.callback.sequence);
  }

  /** In every run a sequence launch is armed only by a key event that is the last of events of the
      run that spell the sequence in time, with nothing but repeats in between, and it is due the
      start delay (in milliseconds, within 50 and 4096) after that event or later. */
  lemma ArmedOnlyByEntry(ws: seq<World>, es: seq<Event>, n: nat, t: Item) returns (idx: seq<nat>)
    requires Trace(ws, es) && n < |es| && t.callback.LaunchSequence? && t !in ws[n].s.items && t in ws[n + 1].s.items
    ensures Spells(es, idx, t.callback.sequence) && idx[|idx| - 1] == n
    ensures Numbers(es, idx, n + 1) && NoneBetween(es, idx, n + 1)
    ensures t.callback.sequence in ws[n].k.matcher.sequences
    ensures t.nextCallTime >= ws[n].s.clock + t.interval
    ensures var delay := t.callback.sequence.abilityStartDelay / 1000;
            t.interval == if delay < 50 then 50 else if delay > 4096 then 4096 else delay
  {
    TraceOk(ws, es, n);
    if !es[n].Key? { OthersArmNone(ws[n], es[n], t); }
    KeyArms(ws[n], es[n].event, es[n].ticks, t);
    var before := HistoryIsOfEvents(ws, es, n);
    idx := EntryArms(ws[n], es, n, before, t);
  }
}
