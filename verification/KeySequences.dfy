/** The incremental matcher for timed key sequences (keys_, sequences_, filterSequences_). */
module KeySequences {
  import opened KeyTypes
  import opened Timers

  const MAX_SEQUENCEKEYS_NUM := 10
  const MAX_DELAY_TIME := 1000000
  const SECONDS_SYSTEM := 1000

  /** An entry of keys_. */
  datatype Pressed = Pressed(stroke: Stroke, time: int, delay: int)

  /** An entry of filterSequences_: a sequence and the id of its pending launch timer, or -1. */
  datatype Candidate = Candidate(sequence: Sequence, timerId: int)

  datatype Matcher = Matcher(sequences: seq<Sequence>, keys: seq<Pressed>, filter: seq<Candidate>)

  function Told(keys: seq<Pressed>): seq<Stroke> {
    seq(|keys|, i requires 0 <= i < |keys| => keys[i].stroke)
  }

  /** InterruptTimers. */
  function Interrupt(filter: seq<Candidate>, s: Sched<Callback>): (seq<Candidate>, Sched<Callback>)
    decreases |filter|
  {
    if filter == [] then ([], s)
    else if filter[0].timerId >= 0 then
      var (rest, r) := Interrupt(filter[1..], Remove(s, filter[0].timerId));
      ([filter[0].(timerId := -1)] + rest, r)
    else
      var (rest, r) := Interrupt(filter[1..], s);
      ([filter[0]] + rest, r)
  }

  /** ResetSequenceKeys; pending launch timers stay armed. */
  function Cleared(m: Matcher): Matcher { m.(keys := [], filter := []) }

  function Entry(e: KeyEvent): Pressed { Pressed(Stroke(e.keyCode, e.action), e.actionTime, 0) }

  /** AddSequenceKey: the new state and whether the event was recorded. */
  function Record(m: Matcher, s: Sched<Callback>, e: KeyEvent): (Matcher, Sched<Callback>, bool) {
    var n := |m.keys|;
    if n == 0 then (m.(keys := [Entry(e)]), s, true)
    else if m.keys[n - 1].time > e.actionTime then (Cleared(m), s, false)
    else if e.actionTime - m.keys[n - 1].time > MAX_DELAY_TIME then
      if n > MAX_SEQUENCEKEYS_NUM then (Cleared(m), s, false)
      else (Cleared(m).(keys := [Entry(e)]), s, true)
    else if Repeats(Told(m.keys), Entry(e).stroke) then (m, s, false)
    else
      var timed := m.keys[n - 1 := m.keys[n - 1].(delay := e.actionTime - m.keys[n - 1].time)];
      var (filter, r) := Interrupt(m.filter, s);
      if n > MAX_SEQUENCEKEYS_NUM then (m.(keys := timed, filter := filter), r, false)
      else (m.(keys := timed + [Entry(e)], filter := filter), r, true)
  }

  /** The history agrees with the first steps of the sequence, in strokes and in time. */
  predicate Matches(keys: seq<Pressed>, q: Sequence) {
    && |keys| <= |q.sequenceKeys|
    && forall i | 0 <= i < |keys| ::
         && keys[i].stroke == q.sequenceKeys[i].stroke
         && (i + 1 != |keys| && q.sequenceKeys[i].delay != 0 ==> keys[i].delay < q.sequenceKeys[i].delay)
  }

  predicate Completed(keys: seq<Pressed>, q: Sequence) { Matches(keys, q) && |keys| == |q.sequenceKeys| }
  predicate Extends(keys: seq<Pressed>, q: Sequence) { Matches(keys, q) && |keys| < |q.sequenceKeys| }

  /** HandleSequence: the candidate afterwards, whether it stays, and whether it launches. */
  function Attempt(c: Candidate, keys: seq<Pressed>, s: Sched<Callback>, tick: nat): (Candidate, bool, bool, Sched<Callback>) {
    if !Matches(keys, c.sequence) then (c, false, false, s)
    else if !Completed(keys, c.sequence) then (c, true, false, s)
    else
      var (r, id) := Add(s, c.sequence.abilityStartDelay / SECONDS_SYSTEM, 1, LaunchSequence(c.sequence), tick);
      (c.(timerId := id), id >= 0, id >= 0, r)
  }

  /** The outcome of the loop over the candidates. */
  datatype Scanned = Scanned(all: seq<Candidate>, stay: seq<Candidate>, launched: bool, sched: Sched<Callback>)

  function Scan(cs: seq<Candidate>, keys: seq<Pressed>, s: Sched<Callback>, ticks: seq<nat>, i: nat): Scanned
    decreases |cs|
  {
    if cs == [] then Scanned([], [], false, s) else
    var (c, stays, launches, r) := Attempt(cs[0], keys, s, Tick(ticks, i));
    var rest := Scan(cs[1..], keys, r, ticks, i + 1);
    Scanned([c] + rest.all, if stays then [c] + rest.stay else rest.stay, launches || rest.launched, rest.sched)
  }

  function Fresh(qs: seq<Sequence>): seq<Candidate> {
    seq(|qs|, i requires 0 <= i < |qs| => Candidate(qs[i], -1))
  }

  /** The candidates scanned for a recorded event. */
  function Candidates(m: Matcher): seq<Candidate> { if m.filter == [] then Fresh(m.sequences) else m.filter }

  /** HandleSequences without its effects on other components. */
  function Press(m: Matcher, s: Sched<Callback>, e: KeyEvent, ticks: seq<nat>): (Matcher, Sched<Callback>, bool) {
    if m.sequences == [] then (m, s, false) else
    var (m1, s1, recorded) := Record(m, s, e);
    if !recorded then (m1, s1, false) else
    var r := Scan(Candidates(m1), m1.keys, s1, ticks, 0);
    (m1.(filter := if r.stay == [] then r.all else r.stay), r.sched, r.launched)
  }

  // ---------- the filter against a full rescan ----------

  function Select(qs: seq<Sequence>, p: Sequence -> bool): seq<Sequence> {
    if qs == [] then []
    else if p(qs[0]) then [qs[0]] + Select(qs[1..], p)
    else Select(qs[1..], p)
  }

  function Named(cs: seq<Candidate>): seq<Sequence> {
    seq(|cs|, i requires 0 <= i < |cs| => cs[i].sequence)
  }

  function ExtendedBy(keys: seq<Pressed>): Sequence -> bool { (q: Sequence) => Extends(keys, q) }
  function CompletedBy(keys: seq<Pressed>): Sequence -> bool { (q: Sequence) => Completed(keys, q) }

  /** A filter in use lists the sequences that strictly extend the history as the whole
      configuration does: none missing, in the same order, as often. */
  ghost predicate FilterOk(m: Matcher) {
    && (m.keys == [] ==> m.filter == [])
    && (m.filter == [] || Select(Named(m.filter), ExtendedBy(m.keys)) == Select(m.sequences, ExtendedBy(m.keys)))
  }

  lemma {:induction false} SelectStronger(qs: seq<Sequence>, p: Sequence -> bool, q: Sequence -> bool)
    requires forall x :: q(x) ==> p(x)
    ensures Select(Select(qs, p), q) == Select(qs, q)
  {
    if qs != [] {
      SelectStronger(qs[1..], p, q);
      if p(qs[0]) { assert Select(qs, p)[1..] == Select(qs[1..], p); }
    }
  }

  /** A sequence that agrees with a history agrees with its beginning. */
  lemma MatchesBefore(m: Matcher, s: Sched<Callback>, e: KeyEvent, q: Sequence)
    requires m.keys != [] && Record(m, s, e).2 && |Record(m, s, e).0.keys| > 1
    requires Matches(Record(m, s, e).0.keys, q)
    ensures Extends(m.keys, q)
  {
    var keys := Record(m, s, e).0.keys;
    var n := |m.keys|;
    assert |keys| == n + 1;
    forall i | 0 <= i < n
      ensures m.keys[i].stroke == q.sequenceKeys[i].stroke
      ensures i + 1 != n && q.sequenceKeys[i].delay != 0 ==> m.keys[i].delay < q.sequenceKeys[i].delay
    {
      assert keys[i].stroke == q.sequenceKeys[i].stroke;
    }
  }

  lemma {:induction false} InterruptKeepsNames(filter: seq<Candidate>, s: Sched<Callback>)
    ensures Named(Interrupt(filter, s).0) == Named(filter)
    ensures forall c | c in Interrupt(filter, s).0 :: c.timerId < 0
    decreases |filter|
  {
    if filter != [] {
      var r := if filter[0].timerId >= 0 then Remove(s, filter[0].timerId) else s;
      InterruptKeepsNames(filter[1..], r);
      var out := Interrupt(filter, s).0;
      assert out[1..] == Interrupt(filter[1..], r).0;
      assert Named(out) == [out[0].sequence] + Named(out[1..]);
      assert Named(filter) == [filter[0].sequence] + Named(filter[1..]);
    }
  }

  lemma {:induction false} ScanNames(cs: seq<Candidate>, keys: seq<Pressed>, s: Sched<Callback>, ticks: seq<nat>, i: nat)
    ensures var r := Scan(cs, keys, s, ticks, i);
            && Named(r.all) == Named(cs)
            && Select(Named(r.stay), ExtendedBy(keys)) == Select(Named(cs), ExtendedBy(keys))
            && (r.launched ==> Select(Named(cs), CompletedBy(keys)) != [])
    decreases |cs|
  {
    if cs != [] {
      var (c, stays, launches, r) := Attempt(cs[0], keys, s, Tick(ticks, i));
      ScanNames(cs[1..], keys, r, ticks, i + 1);
      var out := Scan(cs, keys, s, ticks, i);
      var rest := Scan(cs[1..], keys, r, ticks, i + 1);
      assert Named(out.all) == [c.sequence] + Named(rest.all);
      assert Named(cs) == [cs[0].sequence] + Named(cs[1..]);
      assert Named(cs)[1..] == Named(cs[1..]);
      if stays {
        assert Named(out.stay) == [c.sequence] + Named(rest.stay);
        assert Named(out.stay)[1..] == Named(rest.stay);
      }
    }
  }

  lemma NamedFresh(qs: seq<Sequence>)
    ensures Named(Fresh(qs)) == qs
  {
  }

  /** On every recorded event, scanning only the filter finds exactly the sequences that a
      scan of the whole configuration finds, complete and incomplete, in the same order; and
      the filter left behind is again one to rely on, whether or not the timers of the
      completed sequences could be armed. */
  lemma FilterRefinesRescan(m: Matcher, s: Sched<Callback>, e: KeyEvent, ticks: seq<nat>)
    requires FilterOk(m)
    ensures FilterOk(Press(m, s, e, ticks).0)
    ensures var (m1, s1, recorded) := Record(m, s, e);
            recorded ==>
              && Select(Named(Candidates(m1)), CompletedBy(m1.keys)) == Select(m.sequences, CompletedBy(m1.keys))
              && Select(Named(Candidates(m1)), ExtendedBy(m1.keys)) == Select(m.sequences, ExtendedBy(m1.keys))
  {
    var (m1, s1, recorded) := Record(m, s, e);
    InterruptKeepsNames(m.filter, s);
    NamedFresh(m.sequences);
    if recorded {
      if m1.filter != [] {
        assert m.filter != [] && m.keys != [] && |m1.keys| > 1;
        assert Named(m1.filter) == Named(m.filter);
        RescanFromFilter(m, s, e);
      }
      ScanNames(Candidates(m1), m1.keys, s1, ticks, 0);
    } else if m1.filter != [] && m1 != m {
      LastDelayFree(m, m1);
    }
  }

  lemma RescanFromFilter(m: Matcher, s: Sched<Callback>, e: KeyEvent)
    requires FilterOk(m) && m.filter != [] && m.keys != []
    requires Record(m, s, e).2 && |Record(m, s, e).0.keys| > 1
    ensures var keys := Record(m, s, e).0.keys;
            && Select(Named(m.filter), CompletedBy(keys)) == Select(m.sequences, CompletedBy(keys))
            && Select(Named(m.filter), ExtendedBy(keys)) == Select(m.sequences, ExtendedBy(keys))
  {
    var keys := Record(m, s, e).0.keys;
    forall q: Sequence | Matches(keys, q) ensures Extends(m.keys, q) { MatchesBefore(m, s, e, q); }
    SelectStronger(Named(m.filter), ExtendedBy(m.keys), CompletedBy(keys));
    SelectStronger(m.sequences, ExtendedBy(m.keys), CompletedBy(keys));
    SelectStronger(Named(m.filter), ExtendedBy(m.keys), ExtendedBy(keys));
    SelectStronger(m.sequences, ExtendedBy(m.keys), ExtendedBy(keys));
  }

  /** The delay noted on the last entry is not looked at until another entry follows it. */
  lemma LastDelayFree(m: Matcher, m1: Matcher)
    requires FilterOk(m) && m.filter != [] && m1.sequences == m.sequences && Named(m1.filter) == Named(m.filter)
    requires |m1.keys| == |m.keys| && m.keys != [] && m1.keys[..|m.keys| - 1] == m.keys[..|m.keys| - 1]
    requires m1.keys[|m.keys| - 1].stroke == m.keys[|m.keys| - 1].stroke
    ensures FilterOk(m1)
  {
    forall q: Sequence ensures Extends(m1.keys, q) == Extends(m.keys, q) {
      forall i | 0 <= i < |m.keys| - 1 ensures m1.keys[i] == m.keys[i] {
        assert m1.keys[..|m.keys| - 1][i] == m.keys[..|m.keys| - 1][i];
      }
    }
    SelectStronger(Named(m.filter), ExtendedBy(m.keys), ExtendedBy(m1.keys));
    SelectStronger(m.sequences, ExtendedBy(m.keys), ExtendedBy(m1.keys));
  }

  // ---------- the history ----------

  /** What every recorded history satisfies. */
  ghost predicate HistoryOk(keys: seq<Pressed>) {
    && |keys| <= MAX_SEQUENCEKEYS_NUM + 1
    && (forall i | 0 <= i < |keys| - 1 :: keys[i].delay == keys[i + 1].time - keys[i].time)
    && (forall i | 0 <= i < |keys| - 1 :: 0 <= keys[i].delay <= MAX_DELAY_TIME)
    && Alternates(Told(keys))
  }

  lemma RecordKeepsHistory(m: Matcher, s: Sched<Callback>, e: KeyEvent)
    requires HistoryOk(m.keys)
    ensures HistoryOk(Record(m, s, e).0.keys)
  {
    var n := |m.keys|;
    var keys := Record(m, s, e).0.keys;
    if keys == [Entry(e)] {
      assert Told(keys) == [] + [Entry(e).stroke];
      AlternatesSnoc([], Entry(e).stroke);
    } else if |keys| == n {
      assert Told(keys) == Told(m.keys);
    } else if |keys| > 1 {
      assert Told(keys) == Told(m.keys) + [Entry(e).stroke];
      AlternatesSnoc(Told(m.keys), Entry(e).stroke);
    }
  }

  /** Every history reachable from an empty one has at most eleven entries, non-decreasing
      times with gaps of at most MAX_DELAY_TIME noted as delays, and for each key code
      alternating actions. */
  lemma {:induction false} ReachableHistory(m: Matcher, s: Sched<Callback>, es: seq<KeyEvent>, ticks: seq<seq<nat>>)
    requires m.keys == [] && m.filter == []
    ensures var r := PressAll(m, s, es, ticks).0;
            && HistoryOk(r.keys) && FilterOk(r)
            && (forall i, j | 0 <= i <= j < |r.keys| :: r.keys[i].time <= r.keys[j].time)
  {
    PressAllKeeps(m, s, es, ticks);
    TimesOrdered(PressAll(m, s, es, ticks).0.keys);
  }

  lemma TimesOrdered(keys: seq<Pressed>)
    requires HistoryOk(keys)
    ensures forall i, j | 0 <= i <= j < |keys| :: keys[i].time <= keys[j].time
  {
    forall i, j | 0 <= i <= j < |keys| ensures keys[i].time <= keys[j].time { TimeOrder(keys, i, j); }
  }

  lemma {:induction false} TimeOrder(keys: seq<Pressed>, i: nat, j: nat)
    requires HistoryOk(keys) && i <= j < |keys|
    ensures keys[i].time <= keys[j].time
    decreases j
  {
    if i < j { TimeOrder(keys, i, j - 1); assert keys[j - 1].delay == keys[j].time - keys[j - 1].time; }
  }

  /** A run of events, `ticks[k]` being the clock steps during the k-th. */
  function PressAll(m: Matcher, s: Sched<Callback>, es: seq<KeyEvent>, ticks: seq<seq<nat>>): (Matcher, Sched<Callback>)
    decreases |es|
  {
    if es == [] then (m, s) else
    var n := |es| - 1;
    var (m1, s1) := PressAll(m, s, es[..n], ticks);
    var (m2, s2, _) := Press(m1, s1, es[n], if n < |ticks| then ticks[n] else []);
    (m2, s2)
  }

  lemma {:induction false} PressAllKeeps(m: Matcher, s: Sched<Callback>, es: seq<KeyEvent>, ticks: seq<seq<nat>>)
    requires m.keys == [] && m.filter == []
    ensures var r := PressAll(m, s, es, ticks).0;
            HistoryOk(r.keys) && FilterOk(r) && r.sequences == m.sequences
    decreases |es|
  {
    if es != [] {
      var n := |es| - 1;
      PressAllKeeps(m, s, es[..n], ticks);
      var (m1, s1) := PressAll(m, s, es[..n], ticks);
      FilterRefinesRescan(m1, s1, es[n], if n < |ticks| then ticks[n] else []);
      RecordKeepsHistory(m1, s1, es[n]);
    }
  }

  /** The stroke is that of the latest entry of its key. */
  ghost predicate LatestSame(keys: seq<Pressed>, x: Stroke) {
    exists i :: 0 <= i < |keys| && keys[i].stroke == x && forall k | i < k < |keys| :: keys[k].stroke.keyCode != x.keyCode
  }

  lemma RepeatsLatest(keys: seq<Pressed>, x: Stroke)
    ensures Repeats(Told(keys), x) <==> LatestSame(keys, x)
  {
    var ss := Told(keys);
    RepeatsMeans(ss, x);
    assert forall k | 0 <= k < |ss| :: (ss + [x])[k] == keys[k].stroke;
    if Repeats(ss, x) {
      var i :| 0 <= i < |ss| && ss[i] == x && Untouched(ss + [x], i, |ss|);
      assert keys[i].stroke == x;
    }
    if i :| 0 <= i < |keys| && keys[i].stroke == x && forall k | i < k < |keys| :: keys[k].stroke.keyCode != x.keyCode {
      assert ss[i] == x && Untouched(ss + [x], i, |ss|);
    }
  }

  /** What an event does to the history: time that goes back drops it, and the event; a pause
      above a second drops it, and the event too if it had eleven entries; in between a repeat
      is passed over, and so is any event once there are eleven; else the event comes last. */
  lemma RecordMeans(m: Matcher, s: Sched<Callback>, e: KeyEvent)
    ensures var (m1, s1, recorded) := Record(m, s, e);
            var x := Stroke(e.keyCode, e.action);
            var n := |m.keys|;
            && m1.sequences == m.sequences
            && (recorded ==> m1.keys != [] && m1.keys[|m1.keys| - 1].stroke == x && m1.keys[|m1.keys| - 1].time == e.actionTime)
            && (n == 0 ==> recorded && |m1.keys| == 1)
            && (n > 0 ==>
                  var gap := e.actionTime - m.keys[n - 1].time;
                  && (gap < 0 ==> !recorded && m1.keys == [])
                  && (gap > 1000000 ==> (recorded <==> n <= 10) && |m1.keys| == if recorded then 1 else 0)
                  && (0 <= gap <= 1000000 ==>
                        && (recorded <==> !LatestSame(m.keys, x) && n <= 10)
                        && |m1.keys| == (if recorded then n + 1 else n)
                        && forall i | 0 <= i < n :: m1.keys[i].stroke == m.keys[i].stroke && m1.keys[i].time == m.keys[i].time))
  {
    RepeatsLatest(m.keys, Stroke(e.keyCode, e.action));
  }

  // ---------- the key after a full history and a pause ----------

  /** After a pause above MAX_DELAY_TIME a key starts a history of its own exactly if the one
      before it had at most ten entries; a longer one is dropped and the key with it. */
  lemma AfterAPause(m: Matcher, s: Sched<Callback>, e: KeyEvent)
    requires m.keys != [] && e.actionTime - m.keys[|m.keys| - 1].time > MAX_DELAY_TIME
    ensures Record(m, s, e).2 <==> |m.keys| <= MAX_SEQUENCEKEYS_NUM
    ensures Record(m, s, e).0.keys == if |m.keys| <= MAX_SEQUENCEKEYS_NUM then [Entry(e)] else []
  {
  }

  /** Eleven different keys pressed at time 0, and one after a pause. */
  function Eleven(n: nat): seq<KeyEvent> { seq(n, i => KeyEvent(i, ACTION_DOWN, 0, 0, [])) }

  function ElevenNoted(n: nat): seq<Pressed> { seq(n, i => Pressed(Stroke(i, ACTION_DOWN), 0, 0)) }

  lemma {:induction false} NewKeyNeverRepeats(ss: seq<Stroke>, s: Stroke)
    requires forall i | 0 <= i < |ss| :: ss[i].keyCode != s.keyCode
    ensures !Repeats(ss, s)
  {
    if ss != [] { NewKeyNeverRepeats(ss[..|ss| - 1], s); }
  }

  lemma NextOfEleven(m: Matcher, s: Sched<Callback>, n: nat)
    requires n <= MAX_SEQUENCEKEYS_NUM && m.keys == ElevenNoted(n)
    ensures var (m1, s1, recorded) := Record(m, s, Eleven(n + 1)[n]);
            recorded && m1.keys == ElevenNoted(n + 1)
  {
    NewKeyNeverRepeats(Told(m.keys), Stroke(n, ACTION_DOWN));
    if n > 0 { assert m.keys[n - 1 := m.keys[n - 1].(delay := 0)] == m.keys; }
    assert ElevenNoted(n + 1) == ElevenNoted(n) + [Pressed(Stroke(n, ACTION_DOWN), 0, 0)];
  }

  lemma {:induction false} ElevenAreNoted(m: Matcher, s: Sched<Callback>, n: nat)
    requires m.keys == [] && m.filter == [] && m.sequences != [] && n <= MAX_SEQUENCEKEYS_NUM + 1
    ensures PressAll(m, s, Eleven(n), []).0.keys == ElevenNoted(n)
  {
    if n > 0 {
      var es := Eleven(n);
      assert es[..n - 1] == Eleven(n - 1);
      ElevenAreNoted(m, s, n - 1);
      PressAllKeeps(m, s, Eleven(n - 1), []);
      var (m1, s1) := PressAll(m, s, es[..n - 1], []);
      NextOfEleven(m1, s1, n - 1);
    }
  }

  /** From an empty history eleven keys are recorded; the twelfth, after a pause, is not. */
  lemma TwelfthKeyIsLost(m: Matcher, s: Sched<Callback>, late: KeyEvent)
    requires m.keys == [] && m.filter == [] && m.sequences != [] && late.actionTime > MAX_DELAY_TIME
    ensures |PressAll(m, s, Eleven(11), []).0.keys| == 11
    ensures PressAll(m, s, Eleven(11) + [late], []).0.keys == []
  {
    ElevenAreNoted(m, s, 11);
    PressAllKeeps(m, s, Eleven(11), []);
    var es := Eleven(11) + [late];
    assert es[..11] == Eleven(11) && es[11] == late;
    var (m1, s1) := PressAll(m, s, Eleven(11), []);
    AfterAPause(m1, s1, late);
  }

  // ---------- every accepted sequence can be entered ----------

  /** IsSequenceKeysValid's verdict, as a statement about the strokes. */
  ghost predicate Acceptable(steps: seq<SequenceKey>) {
    1 <= |steps| <= MAX_SEQUENCEKEYS_NUM && Alternates(Strokes(steps))
  }

  /** IsSequenceKeysValid, with its map from key code to the latest step. */
  method IsSequenceKeysValid(steps: seq<SequenceKey>) returns (ok: bool)
    ensures ok <==> Acceptable(steps)
  {
    if |steps| == 0 || |steps| > MAX_SEQUENCEKEYS_NUM {
      return false;
    }
    var latest: map<int, SequenceKey> := map[];
    for n := 0 to |steps|
      invariant Alternates(Strokes(steps[..n]))
      invariant forall x :: Repeats(Strokes(steps[..n]), x) <==> x.keyCode in latest && latest[x.keyCode].stroke.action == x.action
    {
      var item := steps[n];
      var before := Strokes(steps[..n]);
      assert Strokes(steps[..n + 1]) == before + [item.stroke];
      AlternatesSnoc(before, item.stroke);
      if item.stroke.keyCode in latest && latest[item.stroke.keyCode].stroke.action == item.stroke.action {
        AlternatesPrefix(Strokes(steps), n + 1);
        assert Strokes(steps)[..n + 1] == before + [item.stroke];
        return false;
      }
      latest := latest[item.stroke.keyCode := item];
      assert (before + [item.stroke])[..n] == before;
    }
    assert steps[..|steps|] == steps;
    return true;
  }

  lemma AlternatesPrefix(ss: seq<Stroke>, n: nat)
    requires n <= |ss|
    ensures Alternates(ss) ==> Alternates(ss[..n])
  {
    var t := ss[..n];
    forall i, j | Alternates(ss) && 0 <= i < j < n && t[i].keyCode == t[j].keyCode && Untouched(t, i, j) ensures t[i].action != t[j].action {
      assert Untouched(ss, i, j) by { assert forall k | i < k < j :: ss[k] == t[k]; }
      assert ss[i].action != ss[j].action;
    }
  }

  /** The first `n` steps of `q` entered at the times `ts`. */
  function Entered(q: Sequence, ts: seq<int>, n: nat): seq<KeyEvent>
    requires n <= |q.sequenceKeys| == |ts|
  {
    seq(n, i requires 0 <= i < n => KeyEvent(q.sequenceKeys[i].stroke.keyCode, q.sequenceKeys[i].stroke.action, 0, ts[i], []))
  }

  /** The history they should leave, with each gap noted. */
  function Noted(q: Sequence, ts: seq<int>, n: nat): seq<Pressed>
    requires n <= |q.sequenceKeys| == |ts|
  {
    seq(n, i requires 0 <= i < n => Pressed(q.sequenceKeys[i].stroke, ts[i], if i + 1 < n then ts[i + 1] - ts[i] else 0))
  }

  /** No time goes back, and no pause is longer than a second. */
  predicate Paced(ts: seq<int>) { forall i | 0 <= i < |ts| - 1 :: 0 <= ts[i + 1] - ts[i] <= 1000000 }

  /** Each pause is shorter than the delay configured for the step before it, if one is. */
  predicate InTime(q: Sequence, ts: seq<int>)
    requires |q.sequenceKeys| == |ts|
  {
    forall i | 0 <= i < |ts| - 1 :: q.sequenceKeys[i].delay != 0 ==> ts[i + 1] - ts[i] < q.sequenceKeys[i].delay
  }

  /** Entering an accepted sequence without long pauses records exactly its steps. */
  lemma {:induction false} EnteredIsNoted(m: Matcher, s: Sched<Callback>, q: Sequence, ts: seq<int>, n: nat, ticks: seq<seq<nat>>)
    requires m.keys == [] && m.filter == [] && q in m.sequences && Acceptable(q.sequenceKeys)
    requires n <= |q.sequenceKeys| == |ts| && Paced(ts)
    ensures PressAll(m, s, Entered(q, ts, n), ticks).0.keys == Noted(q, ts, n)
  {
    if n > 0 {
      var es := Entered(q, ts, n);
      assert es[..n - 1] == Entered(q, ts, n - 1);
      EnteredIsNoted(m, s, q, ts, n - 1, ticks);
      PressAllKeeps(m, s, Entered(q, ts, n - 1), ticks);
      var (m1, s1) := PressAll(m, s, es[..n - 1], ticks);
      NextIsRecorded(m1, s1, q, ts, n - 1);
    }
  }

  lemma NextIsRecorded(m: Matcher, s: Sched<Callback>, q: Sequence, ts: seq<int>, n: nat)
    requires n < |q.sequenceKeys| == |ts| && Paced(ts) && Acceptable(q.sequenceKeys) && m.keys == Noted(q, ts, n)
    ensures var (m1, s1, recorded) := Record(m, s, Entered(q, ts, n + 1)[n]);
            recorded && m1.keys == Noted(q, ts, n + 1)
  {
    StepDoesNotRepeat(q, n);
    assert Told(m.keys) == Strokes(q.sequenceKeys)[..n];
    NotedSnoc(q, ts, n);
  }

  lemma StepDoesNotRepeat(q: Sequence, n: nat)
    requires n < |q.sequenceKeys| && Acceptable(q.sequenceKeys)
    ensures !Repeats(Strokes(q.sequenceKeys)[..n], q.sequenceKeys[n].stroke)
  {
    var ss := Strokes(q.sequenceKeys);
    assert ss[..n + 1] == ss[..n] + [ss[n]];
    AlternatesPrefix(ss, n + 1);
    AlternatesSnoc(ss[..n], ss[n]);
  }

  lemma NotedSnoc(q: Sequence, ts: seq<int>, n: nat)
    requires n < |q.sequenceKeys| == |ts|
    ensures var keys := Noted(q, ts, n);
            var timed := if n == 0 then keys else keys[n - 1 := keys[n - 1].(delay := ts[n] - ts[n - 1])];
            Noted(q, ts, n + 1) == timed + [Pressed(q.sequenceKeys[n].stroke, ts[n], 0)]
  {
  }

  /** The event `e` is recorded, turns the history into `keys`, and its scan finds `q` completed. */
  ghost predicate Triggers(m: Matcher, s: Sched<Callback>, e: KeyEvent, keys: seq<Pressed>, q: Sequence) {
    var (m1, s1, recorded) := Record(m, s, e);
    recorded && m1.keys == keys && q in Select(Named(Candidates(m1)), CompletedBy(keys))
  }

  /** A history of the steps of `q` completes it exactly if they came in time. */
  lemma NotedCompletes(q: Sequence, ts: seq<int>)
    requires |q.sequenceKeys| == |ts|
    ensures Completed(Noted(q, ts, |ts|), q) <==> InTime(q, ts)
  {
    var keys := Noted(q, ts, |ts|);
    if Completed(keys, q) {
      forall i | 0 <= i < |ts| - 1 ensures q.sequenceKeys[i].delay != 0 ==> ts[i + 1] - ts[i] < q.sequenceKeys[i].delay {
        assert keys[i].delay == ts[i + 1] - ts[i];
      }
    }
  }

  lemma LastStepTriggers(m: Matcher, s: Sched<Callback>, q: Sequence, ts: seq<int>)
    requires FilterOk(m) && q in m.sequences && Acceptable(q.sequenceKeys) && |q.sequenceKeys| == |ts| && Paced(ts)
    requires m.keys == Noted(q, ts, |ts| - 1)
    ensures var n := |ts|;
            Triggers(m, s, Entered(q, ts, n)[n - 1], Noted(q, ts, n), q) <==> InTime(q, ts)
  {
    var n := |ts|;
    NextIsRecorded(m, s, q, ts, n - 1);
    NotedCompletes(q, ts);
    if InTime(q, ts) {
      CompletedIsFound(m, s, Entered(q, ts, n)[n - 1], q);
    } else {
      var m1 := Record(m, s, Entered(q, ts, n)[n - 1]).0;
      SelectMember(Named(Candidates(m1)), CompletedBy(m1.keys), q);
    }
  }

  /** Entering the steps of a sequence that the configuration check accepts, from an empty history
      and without long pauses, records exactly them; and the last finds the sequence completed
      among the scanned candidates if and only if each pause was shorter than the delay configured
      for the step before it.  Without any pause it always is. */
  lemma {:induction false} AcceptedIsReachable(m: Matcher, s: Sched<Callback>, q: Sequence, ts: seq<int>, ticks: seq<seq<nat>>)
    requires m.keys == [] && m.filter == [] && q in m.sequences && Acceptable(q.sequenceKeys)
    requires |q.sequenceKeys| == |ts| && Paced(ts)
    ensures var n := |ts|;
            var before := PressAll(m, s, Entered(q, ts, n - 1), ticks);
            && PressAll(m, s, Entered(q, ts, n), ticks).0.keys == Noted(q, ts, n)
            && (Triggers(before.0, before.1, Entered(q, ts, n)[n - 1], Noted(q, ts, n), q) <==> InTime(q, ts))
  {
    var n := |ts|;
    EnteredIsNoted(m, s, q, ts, n, ticks);
    EnteredIsNoted(m, s, q, ts, n - 1, ticks);
    PressAllKeeps(m, s, Entered(q, ts, n - 1), ticks);
    var before := PressAll(m, s, Entered(q, ts, n - 1), ticks);
    LastStepTriggers(before.0, before.1, q, ts);
  }

  /** Steps entered all at one time are in time. */
  lemma AtOnceIsInTime(q: Sequence, ts: seq<int>, t: int)
    requires |q.sequenceKeys| == |ts| && forall i | 0 <= i < |ts| :: ts[i] == t
    ensures Paced(ts) && InTime(q, ts)
  {
  }

  lemma CompletedIsFound(m: Matcher, s: Sched<Callback>, e: KeyEvent, q: Sequence)
    requires FilterOk(m) && q in m.sequences && Record(m, s, e).2 && Completed(Record(m, s, e).0.keys, q)
    ensures var m1 := Record(m, s, e).0;
            q in Select(Named(Candidates(m1)), CompletedBy(m1.keys))
  {
    FilterRefinesRescan(m, s, e, []);
    SelectMember(m.sequences, CompletedBy(Record(m, s, e).0.keys), q);
  }

  lemma {:induction false} SelectMember(qs: seq<Sequence>, p: Sequence -> bool, q: Sequence)
    ensures q in Select(qs, p) <==> q in qs && p(q)
  {
    if qs != [] {
      assert qs == [qs[0]] + qs[1..];
      SelectMember(qs[1..], p, q);
    }
  }
}
