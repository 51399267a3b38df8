/** A shortcut is launched by holding its keys, and nothing but its keys, for the configured time. */
module ShortcutHolds {
  import opened KeyTypes
  import opened TimerList
  import opened Ownership
  import opened KeyCommands
  import opened EventLoop
  import opened Stages

  /** The pending shortcut launches, in list order. */
  function Launching(s: Timetable): seq<Item> { Keep(s.items, OfShortcut()) }

  /** Only the shortcut stage of an event touches the pending launches. */
  lemma KeyEventLeaves(w: World, e: KeyEvent, ticks: Ticks)
    requires WorldOk(w)
    ensures Launching(OnKeyEvent(w, e, ticks).s) == Launching(ShortKeys(w.k, w.s, e, ticks.shortcut).1)
  {
    var w1 := AfterShortcuts(w, e, ticks);
    ShortKeysOk(w, e, ticks.shortcut);
    PressLeaves(w1, e, ticks.sequences, OfShortcut());
    SequencesLeave(w1, e, ticks.sequences, OfShortcut());
    LaterStagesLeave(w, e, ticks, OfShortcut());
  }

  // ---------- what the shortcut stage does with them ----------

  lemma {:induction false} FirstMatchMatches(ks: seq<Shortcut>, e: KeyEvent)
    ensures FirstMatch(ks, e).Some? ==> Shortcuts.IsKeyMatch(FirstMatch(ks, e).value, e)
  {
    if ks != [] && !Shortcuts.IsKeyMatch(ks[0], e) { FirstMatchMatches(ks[1..], e); }
  }

  /** The launch `t` was armed no earlier than `clock` and waits for its shortcut's duration. */
  predicate ArmedFrom(t: Item, clock: int) {
    t.callback.LaunchShortcut? && t.nextCallTime >= clock + Timers.Clamp(t.callback.shortcut.keyDownDuration)
  }

  /** After an event every pending launch is of a shortcut the event matches; one that was not
      pending before was armed by the event. */
  lemma ShortKeysHold(w: World, e: KeyEvent, tick: nat, t: Item)
    requires WorldOk(w) && t in Launching(ShortKeys(w.k, w.s, e, tick).1)
    ensures t.callback.LaunchShortcut? && Shortcuts.IsKeyMatch(t.callback.shortcut, e)
    ensures t in w.s.items || ArmedFrom(t, w.s.clock)
  {
    KeepMembers(w.s.items, OfShortcut());
    if w.k.shortcuts != [] && !Shortcuts.IsKeyMatch(w.k.last, e) {
      CancelShortcut(w.k, w.s);
      FirstMatchMatches(w.k.shortcuts, e);
      var s1 := if w.k.lastTimerId >= 0 then Timers.Remove(w.s, w.k.lastTimerId) else w.s;
      var c := FirstMatch(w.k.shortcuts, e);
      if c.Some? && c.value.keyDownDuration != 0 && c.value.triggerType == ACTION_DOWN {
        var cb := LaunchShortcut(c.value);
        AddOnly(s1, c.value.keyDownDuration, cb, tick);
        AddKeep(s1, c.value.keyDownDuration, cb, tick, OfShortcut());
      }
    }
  }

  // ---------- every step and every run ----------

  /** A firing arms no launch. */
  lemma FireArmsNone(w: World, now: int, ticks: seq<nat>, t: Item)
    requires WorldOk(w) && t in Launching(FireStep(w, now, ticks).s)
    ensures t in Launching(w.s)
  {
    if Fires(w, now) {
      assert w.s.items[0] in w.s.items && OneShot(w.s.items[0]);
      if w.s.items[0].callback.LaunchShortcut? {
        FireTakesFirst(w, now, ticks, OfShortcut());
      } else {
        FireLeavesOthers(w, now, ticks, OfShortcut());
      }
    }
  }

  /** A launch pending after a step is of a shortcut that the step's key event, if any, matches;
      if it was not pending before, that event armed it. */
  lemma StepHolds(w: World, e: Event, t: Item)
    requires WorldOk(w) && t in Launching(Step(w, e).s)
    ensures t.callback.LaunchShortcut? && (e.Key? ==> Shortcuts.IsKeyMatch(t.callback.shortcut, e.event))
    ensures t in Launching(w.s) || (e.Key? && ArmedFrom(t, w.s.clock))
  {
    KeepMembers(w.s.items, OfShortcut());
    if e.Key? {
      KeyEventLeaves(w, e.event, e.ticks);
      ShortKeysHold(w, e.event, e.ticks.shortcut, t);
    } else if e.Fire? {
      FireArmsNone(w, e.now, e.subscriberTicks, t);
    } else {
      OtherStepLeaves(w, e, OfShortcut());
    }
  }

  /** Between moments 0 and `n` of a run, event `j` armed the launch `t`; it has been pending ever
      since, and every key event from that one on was its shortcut pressed. */
  ghost predicate HeldSince(ws: seq<World>, es: seq<Event>, n: nat, t: Item, j: nat)
    requires n <= |es| < |ws|
  {
    && j < n && es[j].Key? && t !in Launching(ws[j].s) && ArmedFrom(t, ws[j].s.clock)
    && (forall i | j < i <= n :: t in Launching(ws[i].s))
    && (forall i | j <= i < n && es[i].Key? :: Shortcuts.IsKeyMatch(t.callback.shortcut, es[i].event))
  }

  /** In every run a pending shortcut launch was armed by a press of exactly its keys, since when
      no other key event came, and it is due no earlier than its duration after that press. */
  lemma {:induction false} LaunchOnlyWhileHeld(ws: seq<World>, es: seq<Event>, n: nat, t: Item)
    requires Trace(ws, es) && n <= |es| && t in Launching(ws[n].s)
    ensures exists j: nat :: HeldSince(ws, es, n, t, j)
  {
    if n > 0 {
      LastEvent(ws, es, n, t);
      if t in Launching(ws[n - 1].s) {
        LaunchOnlyWhileHeld(ws, es, n - 1, t);
        var j: nat :| HeldSince(ws, es, n - 1, t, j);
        HeldOn(ws, es, n, t, j);
      } else {
        assert HeldSince(ws, es, n, t, n - 1);
      }
    }
  }

  /** What the event before moment `n` says about a launch pending then. */
  lemma LastEvent(ws: seq<World>, es: seq<Event>, n: nat, t: Item)
    requires Trace(ws, es) && 0 < n <= |es| && t in Launching(ws[n].s)
    ensures var last, before := es[n - 1], ws[n - 1].s;
            && t.callback.LaunchShortcut? && (last.Key? ==> Shortcuts.IsKeyMatch(t.callback.shortcut, last.event))
            && (t in Launching(before) || (last.Key? && ArmedFrom(t, before.clock)))
  {
    TraceOk(ws, es, n - 1);
    StepHolds(ws[n - 1], es[n - 1], t);
  }

  lemma HeldOn(ws: seq<World>, es: seq<Event>, n: nat, t: Item, j: nat)
    requires 0 < n <= |es| < |ws| && HeldSince(ws, es, n - 1, t, j) && t in Launching(ws[n].s)
    requires es[n - 1].Key? ==> Shortcuts.IsKeyMatch(t.callback.shortcut, es[n - 1].event)
    ensures HeldSince(ws, es, n, t, j)
  {
  }
}
