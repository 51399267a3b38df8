/** What becomes of a configured shortcut when its keys are used, and when an ability is started.

    The shortcuts are told apart by what triggers them: the final key, the way it goes, and the
    set of keys down besides it. */
module ShortcutOutcomes {
  import opened Options
  import opened KeyTypes
  import opened TimerList
  import opened Ownership
  import opened KeySequences
  import opened KeyCommands
  import opened EventLoop
  import opened Stages
  import opened ShortcutHolds
  import Shortcuts
  import Timers

  /** The event as keyboards send it: every key once among the items, its own included. */
  ghost predicate WellFormed(e: KeyEvent) { Shortcuts.Distinct(Codes(e)) && e.keyCode in Codes(e) && e.keyCode >= 0 }

  /** The final key goes the configured way while exactly the pre-keys are down besides it. */
  ghost predicate Triggers(c: ShortcutKey, e: KeyEvent) {
    && c.finalKey == e.keyCode && c.triggerType == e.action
    && forall x :: x in c.preKeys <==> x != e.keyCode && exists i :: 0 <= i < |e.items| && e.items[i].keyCode == x
  }

  lemma MatchMeans(c: ShortcutKey, e: KeyEvent)
    requires WellFormed(e)
    ensures Shortcuts.IsKeyMatch(c, e) <==> Triggers(c, e)
  {
    Shortcuts.MatchIsSetEquality(c, e);
    var others := Shortcuts.Elements(Codes(e)) - {e.keyCode};
    forall x ensures x in others <==> x != e.keyCode && exists i :: 0 <= i < |e.items| && e.items[i].keyCode == x {
      if exists i :: 0 <= i < |e.items| && e.items[i].keyCode == x {
        var i :| 0 <= i < |e.items| && e.items[i].keyCode == x;
        assert Codes(e)[i] == x;
      }
      if x in Shortcuts.Elements(Codes(e)) {
        var i :| 0 <= i < |Codes(e)| && Codes(e)[i] == x;
        assert e.items[i].keyCode == x;
      }
    }
    if Triggers(c, e) { assert c.preKeys == others; }
  }

  /** The shortcuts come from a map filed by trigger. */
  ghost predicate Filed(k: KeyCommand) {
    forall i, j | 0 <= i < j < |k.shortcuts| :: !Shortcuts.SameTrigger(k.shortcuts[i], k.shortcuts[j])
  }

  lemma SameTriggers(a: ShortcutKey, b: ShortcutKey, e: KeyEvent)
    requires Triggers(a, e) && Triggers(b, e)
    ensures Shortcuts.SameTrigger(a, b)
  {
    assert forall x :: x in a.preKeys <==> x in b.preKeys;
  }

  lemma {:induction false} FirstMatchMeans(ks: seq<Shortcut>, e: KeyEvent, c: Shortcut)
    requires forall i, j | 0 <= i < j < |ks| :: !Shortcuts.SameTrigger(ks[i], ks[j])
    requires WellFormed(e)
    ensures FirstMatch(ks, e) == Some(c) <==> c in ks && Triggers(c, e)
  {
    if ks != [] {
      MatchMeans(ks[0], e);
      MatchMeans(c, e);
      assert c in ks <==> c == ks[0] || c in ks[1..];
      if Triggers(ks[0], e) && Triggers(c, e) && c in ks {
        SameTriggers(ks[0], c, e);
        var j :| 0 <= j < |ks| && ks[j] == c;
        assert j > 0 ==> !Shortcuts.SameTrigger(ks[0], ks[j]);
      }
      if !Triggers(ks[0], e) {
        FirstMatchMeans(ks[1..], e, c);
      }
    }
  }

  lemma {:induction false} NoMatchMeans(ks: seq<Shortcut>, e: KeyEvent)
    requires WellFormed(e)
    ensures FirstMatch(ks, e).None? <==> forall c | c in ks :: !Triggers(c, e)
  {
    if ks != [] {
      MatchMeans(ks[0], e);
      NoMatchMeans(ks[1..], e);
      assert forall c :: c in ks <==> c == ks[0] || c in ks[1..];
    }
  }

  /** The event's key went down less than the shortcut's duration (in milliseconds) before it. */
  predicate QuickRelease(c: ShortcutKey, e: KeyEvent) {
    exists i :: 0 <= i < |e.items| && e.items[i].keyCode == e.keyCode && e.actionTime - e.items[i].downTime < c.keyDownDuration * 1000
  }

  lemma {:induction false} OwnItemMeans(items: seq<KeyItem>, keyCode: int, i: nat)
    requires i < |items| && items[i].keyCode == keyCode
    requires forall j | 0 <= j < |items| && j != i :: items[j].keyCode != keyCode
    ensures OwnItem(items, keyCode) == Some(items[i])
  {
    if i > 0 { OwnItemMeans(items[1..], keyCode, i - 1); }
  }

  lemma QuickMeans(c: ShortcutKey, e: KeyEvent)
    requires WellFormed(e)
    ensures var own := OwnItem(e.items, e.keyCode);
            QuickRelease(c, e) <==> own.Some? && e.actionTime - own.value.downTime < c.keyDownDuration * 1000
  {
    var i :| 0 <= i < |Codes(e)| && Codes(e)[i] == e.keyCode;
    forall j | 0 <= j < |e.items| && j != i ensures e.items[j].keyCode != e.keyCode { assert Codes(e)[j] != Codes(e)[i]; }
    OwnItemMeans(e.items, e.keyCode, i);
  }

  /** The pending launch waits for the keys of the event. */
  ghost predicate Waiting(s: Timetable, e: KeyEvent) {
    exists t :: t in Launching(s) && t.callback.LaunchShortcut? && Triggers(t.callback.shortcut, e)
  }

  /** The last matched shortcut is the one whose launch is pending. */
  lemma LastIsWaiting(w: World, e: KeyEvent)
    requires WorldOk(w) && WellFormed(e)
    ensures Shortcuts.IsKeyMatch(w.k.last, e) <==> Waiting(w.s, e)
  {
    var mine := Launching(w.s);
    MatchMeans(w.k.last, e);
    if mine != [] {
      assert mine == [mine[0]];
      assert mine[0] in mine;
    }
  }

  /** The same keys again, while their launch is pending, change nothing and are taken. */
  lemma WaitingIsKept(w: World, e: KeyEvent, tick: nat)
    requires WorldOk(w) && WellFormed(e) && Waiting(w.s, e)
    ensures ShortKeys(w.k, w.s, e, tick) == (w.k, w.s, true)
  {
    LastIsWaiting(w, e);
  }

  /** Any other key event ends a pending launch, the one that triggers no shortcut doing nothing else. */
  lemma OthersEndIt(w: World, e: KeyEvent, tick: nat)
    requires WorldOk(w) && WellFormed(e) && !Waiting(w.s, e)
    requires forall c | c in w.k.shortcuts :: !Triggers(c, e)
    ensures var (k, s, handled) := ShortKeys(w.k, w.s, e, tick);
            Launching(s) == [] && k.launched == w.k.launched && !handled
  {
    LastIsWaiting(w, e);
    NoMatchMeans(w.k.shortcuts, e);
    LeftByCancel(w);
  }

  /** A shortcut without a duration is started at once, and one for a release if its key was held
      for less than the duration. */
  lemma StartedAtOnce(w: World, e: KeyEvent, tick: nat, c: Shortcut)
    requires WorldOk(w) && Filed(w.k) && WellFormed(e) && !Waiting(w.s, e)
    requires c in w.k.shortcuts && Triggers(c, e) && (c.keyDownDuration == 0 || c.triggerType == 3)
    ensures var (k, s, handled) := ShortKeys(w.k, w.s, e, tick);
            && Launching(s) == []
            && (handled <==> c.keyDownDuration == 0 || QuickRelease(c, e))
            && k.launched == if handled then w.k.launched + [c.ability] else w.k.launched
  {
    LastIsWaiting(w, e);
    FirstMatchMeans(w.k.shortcuts, e, c);
    QuickMeans(c, e);
    LeftByCancel(w);
  }

  lemma ArmedAlone(s: Timetable, c: Shortcut, tick: nat)
    requires Timers.Inv(s) && Launching(s) == []
    ensures var (r, id) := Timers.Add(s, c.keyDownDuration, 1, LaunchShortcut(c), tick);
            var wait := if c.keyDownDuration < 50 then 50 else if c.keyDownDuration > 4096 then 4096 else c.keyDownDuration;
            && (id >= 0 <==> |s.items| < 64 && s.clock + tick + wait <= 0x7FFF_FFFF_FFFF_FFFF)
            && (id < 0 ==> Launching(r) == [])
            && (id >= 0 ==> |Launching(r)| == 1 && Launching(r)[0].callback == LaunchShortcut(c)
                            && Launching(r)[0].nextCallTime == s.clock + tick + wait)
  {
    AddOnly(s, c.keyDownDuration, LaunchShortcut(c), tick);
    AddKeep(s, c.keyDownDuration, LaunchShortcut(c), tick, OfShortcut());
    Timers.AddMeans(s, c.keyDownDuration, 1, LaunchShortcut(c), tick);
    Timers.OrderedIds(s);
  }

  /** What is left once a pending launch is removed. */
  lemma LeftByCancel(w: World)
    requires WorldOk(w)
    ensures var s1 := if w.k.lastTimerId >= 0 then Timers.Remove(w.s, w.k.lastTimerId) else w.s;
            Timers.Inv(s1) && s1.clock == w.s.clock && Launching(s1) == [] && s1.items == Keep(w.s.items, NotOf(ShortcutOwner))
  {
    CancelShortcut(w.k, w.s);
    var s1 := if w.k.lastTimerId >= 0 then Timers.Remove(w.s, w.k.lastTimerId) else w.s;
    KeepAll(s1.items, NotOf(ShortcutOwner));
  }

  /** A shortcut for a press with a duration waits for it, alone, if a timer can be had. */
  lemma PressWaits(w: World, e: KeyEvent, tick: nat, c: Shortcut)
    requires WorldOk(w) && Filed(w.k) && WellFormed(e) && !Waiting(w.s, e)
    requires c in w.k.shortcuts && Triggers(c, e) && c.keyDownDuration != 0 && c.triggerType == 2
    ensures var (k, s, handled) := ShortKeys(w.k, w.s, e, tick);
            var wait := if c.keyDownDuration < 50 then 50 else if c.keyDownDuration > 4096 then 4096 else c.keyDownDuration;
            var others := Keep(w.s.items, NotOf(ShortcutOwner));
            && k.launched == w.k.launched
            && (handled <==> |others| < 64 && w.s.clock + tick + wait <= 0x7FFF_FFFF_FFFF_FFFF)
            && (!handled ==> Launching(s) == [])
            && (handled ==> |Launching(s)| == 1 && Launching(s)[0].callback == LaunchShortcut(c)
                            && Launching(s)[0].nextCallTime == w.s.clock + tick + wait)
  {
    LastIsWaiting(w, e);
    FirstMatchMeans(w.k.shortcuts, e, c);
    LeftByCancel(w);
    ArmedAlone(if w.k.lastTimerId >= 0 then Timers.Remove(w.s, w.k.lastTimerId) else w.s, c, tick);
  }

  // ---------- which steps start an ability ----------

  lemma {:induction false} ConsumeStartsNone(w: World, keys: seq<Pressed>)
    ensures Consume(w, keys).k.launched == w.k.launched && Consume(w, keys).k.shortcuts == w.k.shortcuts
    decreases |keys|
  {
    if keys != [] { ConsumeStartsNone(ConsumeOne(w, keys[0].stroke), keys[1..]); }
  }

  lemma SequencesStartNone(w: World, e: KeyEvent, ticks: seq<nat>)
    ensures var k := Sequences(w, e, ticks).0.k;
            k.launched == w.k.launched && k.shortcuts == w.k.shortcuts
  {
    var (m, s, launched) := Press(w.k.matcher, w.s, e, ticks);
    ConsumeStartsNone(World(w.k.(matcher := m), w.h, s), m.keys);
  }

  lemma LaterStagesStartNone(w: World, e: KeyEvent, byShortcut: bool, ticks: Ticks)
    ensures var (w2, bySequence) := Sequences(w, e, ticks.sequences);
            var k := Rest(w2, e, byShortcut || bySequence, ticks.delay).0.k;
            k.launched == w.k.launched && k.shortcuts == w.k.shortcuts
  {
    SequencesStartNone(w, e, ticks.sequences);
  }

  lemma ShortKeysKeepShortcuts(k: KeyCommand, s: Timetable, e: KeyEvent, tick: nat)
    ensures ShortKeys(k, s, e, tick).0.shortcuts == k.shortcuts
  {
  }

  /** Only the shortcut stage of an event starts an ability. */
  lemma KeyStarts(w: World, e: KeyEvent, ticks: Ticks)
    ensures var k := OnKeyEvent(w, e, ticks).k;
            k.launched == ShortKeys(w.k, w.s, e, ticks.shortcut).0.launched && k.shortcuts == w.k.shortcuts
  {
    ShortKeysKeepShortcuts(w.k, w.s, e, ticks.shortcut);
    LaterStagesStartNone(AfterShortcuts(w, e, ticks), e, ShortKeys(w.k, w.s, e, ticks.shortcut).2, ticks);
  }

  lemma {:induction false} ShortcutsStay(ws: seq<World>, es: seq<Event>, n: nat)
    requires Trace(ws, es) && n <= |es|
    ensures ws[n].k.shortcuts == ws[0].k.shortcuts
  {
    if n > 0 {
      ShortcutsStay(ws, es, n - 1);
      assert ws[n] == Step(ws[n - 1], es[n - 1]);
      if es[n - 1].Key? { KeyStarts(ws[n - 1], es[n - 1].event, es[n - 1].ticks); }
    }
  }

  /** A key event that starts the shortcut's ability there and then. */
  ghost predicate AtOnce(w: World, e: Event, c: Shortcut) {
    && e.Key? && c in w.k.shortcuts && Triggers(c, e.event) && !Waiting(w.s, e.event)
    && (c.keyDownDuration == 0 || (c.triggerType == 3 && QuickRelease(c, e.event)))
  }

  /** A pending launch whose time has come. */
  ghost predicate Due(w: World, e: Event, ability: string) {
    && e.Fire? && w.s.items != [] && w.s.items[0].nextCallTime <= e.now <= w.s.clock
    && match w.s.items[0].callback
       case LaunchShortcut(c) => c.ability == ability
       case LaunchSequence(q) => q.ability == ability
       case _ => false
  }

  /** In every run an ability is started exactly by a key event that triggers a shortcut without
      delay, or for a release in time, or by the firing of a pending launch: never otherwise,
      never another ability, and never two at once. */
  lemma StartedExactlyWhen(ws: seq<World>, es: seq<Event>, n: nat, ability: string)
    requires Trace(ws, es) && n < |es| && Filed(ws[0].k) && (es[n].Key? ==> WellFormed(es[n].event))
    ensures var w, r := ws[n].k.launched, ws[n + 1].k.launched;
            && (r == w || (|r| == |w| + 1 && r[..|w|] == w))
            && (r == w + [ability] <==> Due(ws[n], es[n], ability) || exists c :: AtOnce(ws[n], es[n], c) && c.ability == ability)
  {
    TraceOk(ws, es, n);
    ShortcutsStay(ws, es, n);
    assert ws[n + 1] == Step(ws[n], es[n]);
    if es[n].Key? {
      KeyStartsExactly(ws[n], es[n], ability);
    } else if es[n].Fire? && Fires(ws[n], es[n].now) {
      FireStarts(ws[n], es[n], ability);
    }
  }

  lemma KeyStartsExactly(w: World, e: Event, ability: string)
    requires WorldOk(w) && Filed(w.k) && e.Key? && WellFormed(e.event)
    ensures var a, r := w.k.launched, Step(w, e).k.launched;
            && (r == a || (|r| == |a| + 1 && r[..|a|] == a))
            && (r == a + [ability] <==> exists c :: AtOnce(w, e, c) && c.ability == ability)
  {
    var tick := e.ticks.shortcut;
    KeyStarts(w, e.event, e.ticks);
    NoMatchMeans(w.k.shortcuts, e.event);
    if Waiting(w.s, e.event) {
      WaitingIsKept(w, e.event, tick);
    } else if m: Shortcut :| m in w.k.shortcuts && Triggers(m, e.event) {
      forall c | AtOnce(w, e, c) ensures c == m {
        FirstMatchMeans(w.k.shortcuts, e.event, c);
        FirstMatchMeans(w.k.shortcuts, e.event, m);
      }
      if m.keyDownDuration == 0 || m.triggerType == 3 {
        StartedAtOnce(w, e.event, tick, m);
      } else {
        PressWaits(w, e.event, tick, m);
      }
    } else {
      OthersEndIt(w, e.event, tick);
    }
  }

  lemma FireStarts(w: World, e: Event, ability: string)
    requires WorldOk(w) && e.Fire? && Fires(w, e.now)
    ensures var a, r := w.k.launched, Step(w, e).k.launched;
            && (r == a || (|r| == |a| + 1 && r[..|a|] == a))
            && (r == a + [ability] <==> Due(w, e, ability))
  {
    assert w.s.items[0] in w.s.items && OneShot(w.s.items[0]);
  }
}
