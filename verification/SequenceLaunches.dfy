/** Which launches an event arms: those of the sequences that a full scan finds completed. */
module SequenceLaunches {
  import opened KeyTypes
  import opened TimerList
  import opened Timers
  import opened Ownership
  import opened KeySequences
  import KeyCommands
  import EventLoop

  function Callbacks(l: seq<Item>): seq<Callback> { seq(|l|, i requires 0 <= i < |l| => l[i].callback) }

  function LaunchesOf(qs: seq<Sequence>): seq<Callback> { seq(|qs|, i requires 0 <= i < |qs| => LaunchSequence(qs[i])) }

  /** The sequences for which the loop over the candidates arms a timer. */
  function ArmedIn(cs: seq<Candidate>, keys: seq<Pressed>, s: Timetable, ticks: seq<nat>, i: nat): seq<Sequence>
    decreases |cs|
  {
    if cs == [] then [] else
    var (c, stays, launches, r) := Attempt(cs[0], keys, s, Tick(ticks, i));
    var rest := ArmedIn(cs[1..], keys, r, ticks, i + 1);
    if launches then [cs[0].sequence] + rest else rest
  }

  lemma {:induction false} InsertCallbacks(l: seq<Item>, t: Item)
    ensures |Insert(l, t)| == |l| + 1
    ensures multiset(Callbacks(Insert(l, t))) == multiset(Callbacks(l)) + multiset{t.callback}
  {
    if l != [] && l[0].nextCallTime <= t.nextCallTime {
      InsertCallbacks(l[1..], t);
      assert Callbacks(l) == [l[0].callback] + Callbacks(l[1..]);
      assert Callbacks(Insert(l, t)) == [l[0].callback] + Callbacks(Insert(l[1..], t));
    } else {
      assert Callbacks([t] + l) == [t.callback] + Callbacks(l);
    }
  }

  /** What one candidate adds: the launch of its sequence, if that is completed and a timer is free. */
  lemma AttemptArms(c: Candidate, keys: seq<Pressed>, s: Timetable, tick: nat)
    requires Inv(s)
    ensures var (d, stays, launches, r) := Attempt(c, keys, s, tick);
            && Inv(r) && (forall t | t in s.items :: t in r.items)
            && (launches ==> Completed(keys, c.sequence) && exists t :: t in r.items && t !in s.items && t.callback == LaunchSequence(c.sequence))
            && multiset(Callbacks(r.items)) ==
                 multiset(Callbacks(s.items)) + (if launches then multiset{LaunchSequence(c.sequence)} else multiset{})
  {
    if Completed(keys, c.sequence) {
      var interval := c.sequence.abilityStartDelay / SECONDS_SYSTEM;
      var cb := LaunchSequence(c.sequence);
      AddKeepsInv(s, interval, 1, cb, tick);
      AddMeans(s, interval, 1, cb, tick);
      AddOnly(s, interval, cb, tick);
      InsertCallbacks(s.items, NewItem(s, interval, cb, tick));
      InsertMembers(s.items, NewItem(s, interval, cb, tick));
    }
  }

  /** With room a completed sequence is armed, and there is room for the others. */
  lemma AttemptRoom(c: Candidate, keys: seq<Pressed>, s: Timetable, ticks: seq<nat>, i: nat, n: nat)
    requires Inv(s) && Room(s, n, ticks, i)
    ensures var (d, stays, launches, r) := Attempt(c, keys, s, Tick(ticks, i));
            && (Completed(keys, c.sequence) && n > 0 ==> launches && Room(r, n - 1, ticks, i + 1))
            && (!Completed(keys, c.sequence) ==> Room(r, n, ticks, i + 1))
  {
    if Completed(keys, c.sequence) {
      var interval := c.sequence.abilityStartDelay / SECONDS_SYSTEM;
      var cb := LaunchSequence(c.sequence);
      var tick := Tick(ticks, i);
      AddMeans(s, interval, 1, cb, tick);
      AddOnly(s, interval, cb, tick);
      InsertCallbacks(s.items, NewItem(s, interval, cb, tick));
    }
  }

  lemma LaunchesCons(q: Sequence, qs: seq<Sequence>)
    ensures multiset(LaunchesOf([q] + qs)) == multiset{LaunchSequence(q)} + multiset(LaunchesOf(qs))
  {
    assert LaunchesOf([q] + qs) == [LaunchSequence(q)] + LaunchesOf(qs);
  }

  /** From `s` to `r` nothing went and exactly the launches of `armed` came. */
  predicate Gained(s: Timetable, r: Timetable, armed: seq<Sequence>) {
    && (forall t | t in s.items :: t in r.items)
    && multiset(Callbacks(r.items)) == multiset(Callbacks(s.items)) + multiset(LaunchesOf(armed))
  }

  lemma GainedCons(s: Timetable, s1: Timetable, r: Timetable, q: Sequence, launches: bool, rest: seq<Sequence>)
    requires Gained(s1, r, rest) && forall t | t in s.items :: t in s1.items
    requires multiset(Callbacks(s1.items)) ==
               multiset(Callbacks(s.items)) + (if launches then multiset{LaunchSequence(q)} else multiset{})
    ensures Gained(s, r, if launches then [q] + rest else rest)
  {
    LaunchesCons(q, rest);
  }

  lemma {:induction false} ScanArms(cs: seq<Candidate>, keys: seq<Pressed>, s: Timetable, ticks: seq<nat>, i: nat)
    requires Inv(s)
    ensures var r := Scan(cs, keys, s, ticks, i);
            var armed := ArmedIn(cs, keys, s, ticks, i);
            Inv(r.sched) && Gained(s, r.sched, armed) && (r.launched <==> armed != [])
    decreases |cs|
  {
    if cs != [] {
      var (c, stays, launches, s1) := Attempt(cs[0], keys, s, Tick(ticks, i));
      AttemptArms(cs[0], keys, s, Tick(ticks, i));
      ScanArms(cs[1..], keys, s1, ticks, i + 1);
      var rest := Scan(cs[1..], keys, s1, ticks, i + 1);
      GainedCons(s, s1, rest.sched, cs[0].sequence, launches, ArmedIn(cs[1..], keys, s1, ticks, i + 1));
    }
  }

  lemma NamedCons(cs: seq<Candidate>)
    requires cs != []
    ensures Named(cs) == [cs[0].sequence] + Named(cs[1..])
    ensures Named(cs)[0] == cs[0].sequence && Named(cs)[1..] == Named(cs[1..])
  {
  }

  /** Only completed sequences are armed, each as often as it is listed; with room all are. */
  lemma {:induction false} ArmedAreCompleted(cs: seq<Candidate>, keys: seq<Pressed>, s: Timetable, ticks: seq<nat>, i: nat)
    requires Inv(s)
    ensures var armed := ArmedIn(cs, keys, s, ticks, i);
            var done := Select(Named(cs), CompletedBy(keys));
            multiset(armed) <= multiset(done) && (Room(s, |done|, ticks, i) ==> armed == done)
    decreases |cs|
  {
    if cs != [] {
      var (c, stays, launches, s1) := Attempt(cs[0], keys, s, Tick(ticks, i));
      var rest := ArmedIn(cs[1..], keys, s1, ticks, i + 1);
      var others := Select(Named(cs[1..]), CompletedBy(keys));
      NamedCons(cs);
      var done := Select(Named(cs), CompletedBy(keys));
      assert done == if Completed(keys, cs[0].sequence) then [cs[0].sequence] + others else others;
      AttemptArms(cs[0], keys, s, Tick(ticks, i));
      if Room(s, |done|, ticks, i) { AttemptRoom(cs[0], keys, s, ticks, i, |done|); }
      ArmedAreCompleted(cs[1..], keys, s1, ticks, i + 1);
      if launches {
        assert multiset([cs[0].sequence] + rest) == multiset{cs[0].sequence} + multiset(rest);
        assert multiset([cs[0].sequence] + others) == multiset{cs[0].sequence} + multiset(others);
      }
    }
  }

  /** Every sequence armed has a timer that was not there before. */
  lemma {:induction false} ArmedHasTimer(cs: seq<Candidate>, keys: seq<Pressed>, s: Timetable, ticks: seq<nat>, i: nat, q: Sequence)
    requires Inv(s) && q in ArmedIn(cs, keys, s, ticks, i)
    ensures exists t :: t in Scan(cs, keys, s, ticks, i).sched.items && t !in s.items && t.callback == LaunchSequence(q)
    decreases |cs|
  {
    var (c, stays, launches, s1) := Attempt(cs[0], keys, s, Tick(ticks, i));
    AttemptArms(cs[0], keys, s, Tick(ticks, i));
    ScanArms(cs[1..], keys, s1, ticks, i + 1);
    if q in ArmedIn(cs[1..], keys, s1, ticks, i + 1) { ArmedHasTimer(cs[1..], keys, s1, ticks, i + 1, q); }
  }

  lemma {:induction false} InterruptInv(filter: seq<Candidate>, s: Timetable)
    requires Inv(s)
    ensures Inv(Interrupt(filter, s).1)
    decreases |filter|
  {
    if filter != [] {
      if filter[0].timerId >= 0 {
        RemoveKeepsInv(s, filter[0].timerId);
        InterruptInv(filter[1..], Remove(s, filter[0].timerId));
      } else {
        InterruptInv(filter[1..], s);
      }
    }
  }

  lemma PressInv(m: Matcher, s: Timetable, e: KeyEvent, ticks: seq<nat>)
    requires Inv(s)
    ensures Inv(Record(m, s, e).1) && Inv(Press(m, s, e, ticks).1)
  {
    InterruptInv(m.filter, s);
    var (m1, s1, recorded) := Record(m, s, e);
    ScanArms(Candidates(m1), m1.keys, s1, ticks, 0);
  }

  /** After a recorded event, counted as often as they occur: the timers are those that recording
      it left, all still there, and new launches of completed sequences of the configuration; of
      all of them if there is room, and of some exactly if the event counts as launching. */
  ghost predicate ArmsCompleted(m: Matcher, s: Timetable, e: KeyEvent, ticks: seq<nat>, armed: seq<Sequence>) {
    var (m1, s1, recorded) := Record(m, s, e);
    var (m2, r, launched) := Press(m, s, e, ticks);
    var done := Select(m.sequences, CompletedBy(m1.keys));
    && Gained(s1, r, armed)
    && multiset(armed) <= multiset(done)
    && (launched <==> armed != [])
    && (Room(s1, |done|, ticks, 0) ==> armed == done)
  }

  lemma PressArmsTheCompleted(m: Matcher, s: Timetable, e: KeyEvent, ticks: seq<nat>)
    requires FilterOk(m) && Inv(s) && m.sequences != [] && Record(m, s, e).2
    ensures exists armed :: ArmsCompleted(m, s, e, ticks, armed)
  {
    var (m1, s1, recorded) := Record(m, s, e);
    var armed := ArmedIn(Candidates(m1), m1.keys, s1, ticks, 0);
    PressInv(m, s, e, ticks);
    FilterRefinesRescan(m, s, e, ticks);
    ScanArms(Candidates(m1), m1.keys, s1, ticks, 0);
    ArmedAreCompleted(Candidates(m1), m1.keys, s1, ticks, 0);
    assert ArmsCompleted(m, s, e, ticks, armed);
  }

  /** So it is on every event recorded in a run of the whole loop. */
  lemma RunArmsTheCompleted(w: KeyCommands.World, es: seq<EventLoop.Event>, e: KeyEvent, ticks: seq<nat>)
    requires EventLoop.Started(w)
    ensures var r := EventLoop.Run(w, es);
            r.k.matcher.sequences != [] && Record(r.k.matcher, r.s, e).2 ==>
              exists armed :: ArmsCompleted(r.k.matcher, r.s, e, ticks, armed)
  {
    EventLoop.StartedOk(w);
    EventLoop.RunOk(w, es);
    var r := EventLoop.Run(w, es);
    if r.k.matcher.sequences != [] && Record(r.k.matcher, r.s, e).2 { PressArmsTheCompleted(r.k.matcher, r.s, e, ticks); }
  }

  // ---------- an accepted sequence, entered, is launched ----------

  lemma {:induction false} PressAllInv(m: Matcher, s: Timetable, es: seq<KeyEvent>, ticks: seq<seq<nat>>)
    requires Inv(s)
    ensures Inv(PressAll(m, s, es, ticks).1)
    decreases |es|
  {
    if es != [] {
      var n := |es| - 1;
      PressAllInv(m, s, es[..n], ticks);
      var (m1, s1) := PressAll(m, s, es[..n], ticks);
      PressInv(m1, s1, es[n], if n < |ticks| then ticks[n] else []);
    }
  }

  /** The event arms a launch of `q` under a timer that recording it had not left. */
  ghost predicate Arms(m: Matcher, s: Timetable, e: KeyEvent, ticks: seq<nat>, q: Sequence) {
    && Press(m, s, e, ticks).2
    && exists t :: t in Press(m, s, e, ticks).1.items && t !in Record(m, s, e).1.items && t.callback == LaunchSequence(q)
  }

  lemma TriggeredIsArmed(m: Matcher, s: Timetable, e: KeyEvent, ticks: seq<nat>, keys: seq<Pressed>, q: Sequence)
    requires FilterOk(m) && Inv(s) && q in m.sequences && Triggers(m, s, e, keys, q)
    requires Room(Record(m, s, e).1, |Select(m.sequences, CompletedBy(keys))|, ticks, 0)
    ensures Arms(m, s, e, ticks, q)
  {
    var (m1, s1, recorded) := Record(m, s, e);
    PressInv(m, s, e, ticks);
    FilterRefinesRescan(m, s, e, ticks);
    ScanArms(Candidates(m1), m1.keys, s1, ticks, 0);
    ArmedAreCompleted(Candidates(m1), m1.keys, s1, ticks, 0);
    ArmedHasTimer(Candidates(m1), m1.keys, s1, ticks, 0, q);
  }

  /** What the scan adds is for completed candidates, due their start delay after the clock reading. */
  ghost predicate NewLaunch(s: Timetable, r: Timetable, keys: seq<Pressed>, t: Item) {
    && t.callback.LaunchSequence? && Completed(keys, t.callback.sequence) && t.repeatCount == 1
    && t.interval == Clamp(t.callback.sequence.abilityStartDelay / SECONDS_SYSTEM)
    && s.clock <= t.nextCallTime - t.interval <= r.clock
  }

  lemma AttemptNew(c: Candidate, keys: seq<Pressed>, s: Timetable, tick: nat, t: Item)
    requires Inv(s) && t in Attempt(c, keys, s, tick).3.items && t !in s.items
    ensures NewLaunch(s, Attempt(c, keys, s, tick).3, keys, t) && t.callback.sequence == c.sequence
  {
    var interval := c.sequence.abilityStartDelay / SECONDS_SYSTEM;
    AddOnly(s, interval, LaunchSequence(c.sequence), tick);
    InsertMembers(s.items, NewItem(s, interval, LaunchSequence(c.sequence), tick));
  }

  lemma AttemptClock(c: Candidate, keys: seq<Pressed>, s: Timetable, tick: nat)
    ensures Attempt(c, keys, s, tick).3.clock >= s.clock
  {
  }

  lemma {:induction false} ScanNew(cs: seq<Candidate>, keys: seq<Pressed>, s: Timetable, ticks: seq<nat>, i: nat, t: Item)
    requires Inv(s)
    ensures Scan(cs, keys, s, ticks, i).sched.clock >= s.clock
    ensures t in Scan(cs, keys, s, ticks, i).sched.items && t !in s.items ==>
              NewLaunch(s, Scan(cs, keys, s, ticks, i).sched, keys, t) && t.callback.sequence in Named(cs)
    decreases |cs|
  {
    if cs != [] {
      var (c, stays, launches, s1) := Attempt(cs[0], keys, s, Tick(ticks, i));
      AttemptArms(cs[0], keys, s, Tick(ticks, i));
      AttemptClock(cs[0], keys, s, Tick(ticks, i));
      ScanNew(cs[1..], keys, s1, ticks, i + 1, t);
      NamedCons(cs);
      if t in s1.items && t !in s.items { AttemptNew(cs[0], keys, s, Tick(ticks, i), t); }
    }
  }

  /** Only a completed sequence is armed. */
  lemma ArmsMeansCompleted(m: Matcher, s: Timetable, e: KeyEvent, ticks: seq<nat>, q: Sequence)
    requires Inv(s) && m.sequences != [] && Record(m, s, e).2 && Arms(m, s, e, ticks, q)
    ensures Completed(Record(m, s, e).0.keys, q)
  {
    var (m1, s1, recorded) := Record(m, s, e);
    PressInv(m, s, e, ticks);
    var t :| t in Press(m, s, e, ticks).1.items && t !in s1.items && t.callback == LaunchSequence(q);
    ScanNew(Candidates(m1), m1.keys, s1, ticks, 0, t);
  }

  lemma {:induction false} SelectShorter(qs: seq<Sequence>, p: Sequence -> bool)
    ensures |Select(qs, p)| <= |qs|
  {
    if qs != [] { SelectShorter(qs[1..], p); }
  }

  /** Entering an accepted sequence from an empty history, without long pauses, arms its launch with
      the last step exactly if each pause was shorter than the delay configured for the step before
      it; there must be ids for all configured sequences, and no deadline may overflow. */
  lemma AcceptedIsArmed(m: Matcher, s: Timetable, q: Sequence, ts: seq<int>, ticks: seq<seq<nat>>, last: seq<nat>)
    requires m.keys == [] && m.filter == [] && q in m.sequences && Acceptable(q.sequenceKeys) && Inv(s)
    requires |q.sequenceKeys| == |ts| && Paced(ts)
    ensures var n := |ts|;
            var before := PressAll(m, s, Entered(q, ts, n - 1), ticks);
            var e := Entered(q, ts, n)[n - 1];
            && (Arms(before.0, before.1, e, last, q) ==> InTime(q, ts))
            && (InTime(q, ts) && Room(Record(before.0, before.1, e).1, |m.sequences|, last, 0) ==> Arms(before.0, before.1, e, last, q))
  {
    var before := PressAll(m, s, Entered(q, ts, |ts| - 1), ticks);
    PressAllKeeps(m, s, Entered(q, ts, |ts| - 1), ticks);
    PressAllInv(m, s, Entered(q, ts, |ts| - 1), ticks);
    EnteredIsNoted(m, s, q, ts, |ts| - 1, ticks);
    LastStepArms(before.0, before.1, q, ts, last);
  }

  lemma LastStepArms(m: Matcher, s: Timetable, q: Sequence, ts: seq<int>, last: seq<nat>)
    requires FilterOk(m) && Inv(s) && q in m.sequences && Acceptable(q.sequenceKeys) && |q.sequenceKeys| == |ts| && Paced(ts)
    requires m.keys == Noted(q, ts, |ts| - 1)
    ensures var e := Entered(q, ts, |ts|)[|ts| - 1];
            && (Arms(m, s, e, last, q) ==> InTime(q, ts))
            && (InTime(q, ts) && Room(Record(m, s, e).1, |m.sequences|, last, 0) ==> Arms(m, s, e, last, q))
  {
    var e := Entered(q, ts, |ts|)[|ts| - 1];
    var keys := Noted(q, ts, |ts|);
    NextIsRecorded(m, s, q, ts, |ts| - 1);
    if Arms(m, s, e, last, q) {
      ArmsMeansCompleted(m, s, e, last, q);
      NotedCompletes(q, ts);
    }
    if InTime(q, ts) && Room(Record(m, s, e).1, |m.sequences|, last, 0) {
      LastStepTriggers(m, s, q, ts);
      SelectShorter(m.sequences, CompletedBy(keys));
      TriggeredIsArmed(m, s, e, last, keys, q);
    }
  }
}
