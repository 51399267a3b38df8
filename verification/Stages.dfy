/** Which timers each stage of an event, and each other step, leaves alone.

    Every lemma speaks of an arbitrary selection of timers that avoids some owners.  A stage that
    arms or removes timers of one owner only leaves such a selection as it is, entry by entry and
    in order, so that what holds of the pending launches, of the delay line or of the subscribers'
    timers need only be shown for the one stage that touches them.

    The stages of a key event are the shortcuts, the sequences with what a launch takes away, the
    delay line, and the subscribers; the other steps are a firing and those of other components. */
module Stages {
  import opened KeyTypes
  import opened TimerList
  import opened Ownership
  import opened KeySequences
  import opened KeyCommands
  import opened EventLoop

  /** The selection has no timer of `o`. */
  ghost predicate Avoids(p: Item -> bool, o: Owner) { forall t :: p(t) ==> OwnerOf(t) != o }

  lemma TellLeaves(w: World, e: KeyEvent, ticks: seq<nat>, p: Item -> bool)
    requires WorldOk(w) && Avoids(p, SubscriberOwner)
    ensures Keep(Tell(w, e, ticks).s.items, p) == Keep(w.s.items, p)
  {
    Subscribers.OnKeyOk(w.h, w.s, e, ticks);
    OnlyKeeps(w.s, Subscribers.OnKey(w.h, w.s, e, ticks).1, SubscriberOwner, p);
  }

  lemma ShortKeysLeave(w: World, e: KeyEvent, tick: nat, p: Item -> bool)
    requires WorldOk(w) && Avoids(p, ShortcutOwner)
    ensures Keep(ShortKeys(w.k, w.s, e, tick).1.items, p) == Keep(w.s.items, p)
  {
    if w.k.shortcuts != [] && !Shortcuts.IsKeyMatch(w.k.last, e) {
      CancelShortcut(w.k, w.s);
      var s1 := if w.k.lastTimerId >= 0 then Timers.Remove(w.s, w.k.lastTimerId) else w.s;
      OnlyKeeps(w.s, s1, ShortcutOwner, p);
      var m := FirstMatch(w.k.shortcuts, e);
      if m.Some? && m.value.keyDownDuration != 0 && m.value.triggerType == ACTION_DOWN {
        AddOnly(s1, m.value.keyDownDuration, LaunchShortcut(m.value), tick);
        OnlyKeeps(s1, Timers.Add(s1, m.value.keyDownDuration, 1, LaunchShortcut(m.value), tick).0, ShortcutOwner, p);
      }
    }
  }

  lemma ConsumeOneLeaves(w: World, stroke: Stroke, p: Item -> bool)
    requires WorldOk(w) && Avoids(p, SubscriberOwner) && Avoids(p, DelayOwner)
    ensures Keep(ConsumeOne(w, stroke).s.items, p) == Keep(w.s.items, p)
  {
    var c := stroke.keyCode;
    var (h, s1) := Subscribers.ClearKey(w.h, w.s, c, 0);
    Subscribers.ClearKeyOk(w.h, w.s, c, 0);
    OnlyKeeps(w.s, s1, SubscriberOwner, p);
    DelaysFrame(w.k, w.s, s1, SubscriberOwner);
    assert Listed(w.k, c) == Ids(Keep(s1.items, OfDelayed(c)));
    RemoveAllDelayed(s1, c, Listed(w.k, c));
    OnlyKeeps(s1, RemoveAll(s1, Listed(w.k, c)), DelayOwner, p);
  }

  lemma {:induction false} ConsumeLeaves(w: World, keys: seq<Pressed>, p: Item -> bool)
    requires WorldOk(w) && Avoids(p, SubscriberOwner) && Avoids(p, DelayOwner)
    ensures Keep(Consume(w, keys).s.items, p) == Keep(w.s.items, p)
    decreases |keys|
  {
    if keys != [] {
      ConsumeOneLeaves(w, keys[0].stroke, p);
      ConsumeOneOk(w, keys[0].stroke);
      ConsumeLeaves(ConsumeOne(w, keys[0].stroke), keys[1..], p);
    }
  }

  /** What a launch takes away is for the subscribers and the delay line. */
  lemma SequencesLeave(w: World, e: KeyEvent, ticks: seq<nat>, p: Item -> bool)
    requires WorldOk(w) && Avoids(p, SubscriberOwner) && Avoids(p, DelayOwner)
    ensures Keep(Sequences(w, e, ticks).0.s.items, p) == Keep(Press(w.k.matcher, w.s, e, ticks).1.items, p)
  {
    var (m, s, launched) := Press(w.k.matcher, w.s, e, ticks);
    MatchedOk(w, e, ticks);
    ConsumeLeaves(World(w.k.(matcher := m), w.h, s), m.keys, p);
  }

  lemma PressLeaves(w: World, e: KeyEvent, ticks: seq<nat>, p: Item -> bool)
    requires WorldOk(w) && Avoids(p, SequenceOwner)
    ensures Keep(Press(w.k.matcher, w.s, e, ticks).1.items, p) == Keep(w.s.items, p)
  {
    PressOk(w.k.matcher, w.s, e, ticks);
    OnlyKeeps(w.s, Press(w.k.matcher, w.s, e, ticks).1, SequenceOwner, p);
  }

  lemma RestLeaves(w: World, e: KeyEvent, handled: bool, tick: nat, p: Item -> bool)
    requires WorldOk(w) && Avoids(p, DelayOwner)
    ensures Keep(Rest(w, e, handled, tick).0.s.items, p) == Keep(w.s.items, p)
  {
    AddOnly(w.s, SPECIAL_KEY_DOWN_DELAY, DelayedKey(e), tick);
    OnlyKeeps(w.s, Timers.Add(w.s, SPECIAL_KEY_DOWN_DELAY, 1, DelayedKey(e), tick).0, DelayOwner, p);
  }

  /** The world after the shortcut stage of an event. */
  function AfterShortcuts(w: World, e: KeyEvent, ticks: Ticks): World {
    var (k, s, handled) := ShortKeys(w.k, w.s, e, ticks.shortcut);
    w.(k := k, s := s)
  }

  /** After the sequence stage only delay timers and subscriber timers come or go. */
  lemma LaterStagesLeave(w: World, e: KeyEvent, ticks: Ticks, p: Item -> bool)
    requires WorldOk(w) && Avoids(p, SubscriberOwner) && Avoids(p, DelayOwner)
    ensures Keep(OnKeyEvent(w, e, ticks).s.items, p) == Keep(Sequences(AfterShortcuts(w, e, ticks), e, ticks.sequences).0.s.items, p)
  {
    var w1 := AfterShortcuts(w, e, ticks);
    var byShortcut := ShortKeys(w.k, w.s, e, ticks.shortcut).2;
    ShortKeysOk(w, e, ticks.shortcut);
    var (w2, bySequence) := Sequences(w1, e, ticks.sequences);
    SequencesStepOk(w1, e, ticks.sequences);
    var (w3, handled) := Rest(w2, e, byShortcut || bySequence, ticks.delay);
    RestLeaves(w2, e, byShortcut || bySequence, ticks.delay, p);
    RestOk(w2, e, byShortcut || bySequence, ticks.delay);
    TellLeaves(w3, e, ticks.subscribers, p);
  }

  /** The timer at the head of the list is due and taken up. */
  predicate Fires(w: World, now: int) { w.s.items != [] && w.s.items[0].nextCallTime <= now <= w.s.clock }

  /** A firing takes its timer off the list, or puts it back; what the callback does then is for
      the subscribers. */
  lemma FireLeaves(w: World, now: int, ticks: seq<nat>, p: Item -> bool)
    requires WorldOk(w) && Avoids(p, SubscriberOwner) && Fires(w, now)
    ensures Keep(FireStep(w, now, ticks).s.items, p) == Keep(Timers.FireHead(w.s, now).items, p)
  {
    var head := w.s.items[0];
    if head.callback.DelayedKey? {
      FireDelayedOk(w, now);
      TellLeaves(w.(k := Popped(w.k, head.callback.event.keyCode), s := Timers.FireHead(w.s, now)), head.callback.event, ticks, p);
    }
  }

  lemma FireLeavesOthers(w: World, now: int, ticks: seq<nat>, p: Item -> bool)
    requires WorldOk(w) && Avoids(p, SubscriberOwner) && Fires(w, now) && Avoids(p, OwnerOf(w.s.items[0]))
    ensures Keep(FireStep(w, now, ticks).s.items, p) == Keep(w.s.items, p)
  {
    FireLeaves(w, now, ticks, p);
    FireOnly(w.s, now);
    OnlyKeeps(w.s, Timers.FireHead(w.s, now), OwnerOf(w.s.items[0]), p);
  }

  /** A one-shot timer of the selection that fires was its first. */
  lemma FireTakesFirst(w: World, now: int, ticks: seq<nat>, p: Item -> bool)
    requires WorldOk(w) && Avoids(p, SubscriberOwner) && Fires(w, now)
    requires p(w.s.items[0]) && w.s.items[0].repeatCount == 1
    ensures Keep(w.s.items, p) == [w.s.items[0]] + Keep(FireStep(w, now, ticks).s.items, p)
  {
    FireLeaves(w, now, ticks, p);
    FiredIsFirst(w.s, now, p);
  }

  lemma OtherStepLeaves(w: World, e: Event, p: Item -> bool)
    requires WorldOk(w) && !e.Key? && !e.Fire? && Avoids(p, SubscriberOwner) && Avoids(p, OtherOwner)
    ensures Keep(Step(w, e).s.items, p) == Keep(w.s.items, p)
  {
    match e
    case Unsubscribe(session, id) =>
      Subscribers.UnsubscribeOk(w.h, w.s, session, id, 0);
      OnlyKeeps(w.s, Step(w, e).s, SubscriberOwner, p);
    case SessionGone(session) =>
      Subscribers.SessionDeleteOk(w.h, w.s, session, 0);
      OnlyKeeps(w.s, Step(w, e).s, SubscriberOwner, p);
    case OtherAdd(interval, repeatCount, purpose, tick) =>
      OtherAddOnly(w.s, interval, repeatCount, purpose, tick);
      OnlyKeeps(w.s, Step(w, e).s, OtherOwner, p);
    case OtherRemove(id) =>
      if NotOurs(w.s, id) { RemoveOnly(w.s, id, OtherOwner); OnlyKeeps(w.s, Step(w, e).s, OtherOwner, p); }
    case OtherReset(id, tick) =>
      if NotOurs(w.s, id) { OtherResetOnly(w.s, id, tick); OnlyKeeps(w.s, Step(w, e).s, OtherOwner, p); }
    case _ =>
  }
}
