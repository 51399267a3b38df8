/** What the launch of a key sequence takes away from the other receivers of its keys. */
module Launches {
  import opened KeyTypes
  import opened TimerList
  import opened Ownership
  import opened KeySequences
  import opened KeyCommands
  import opened Subscribers

  /** No delayed event of the key is listed and no subscriber to it waits for a timer. */
  predicate Silenced(k: KeyCommand, xs: seq<Subscriber>, c: int) {
    Listed(k, c) == [] && forall i | 0 <= i < |xs| :: xs[i].option.finalKey == c ==> xs[i].timerId < 0
  }

  /** From `xs` to `ys` options stay and no subscriber gains a timer. */
  predicate OnlyDisarmed(xs: seq<Subscriber>, ys: seq<Subscriber>) {
    |ys| == |xs| && forall i | 0 <= i < |xs| :: ys[i].option == xs[i].option && (xs[i].timerId < 0 ==> ys[i].timerId < 0)
  }

  /** Every subscriber from the i-th on whose final key is `c` loses its timer. */
  lemma {:induction false} ClearKeyClears(h: Handler, s: Timetable, c: int, i: nat)
    requires i <= |h.subscribers|
    ensures var xs := ClearKey(h, s, c, i).0.subscribers;
            && OnlyDisarmed(h.subscribers, xs)
            && (forall j | i <= j < |xs| :: xs[j].option.finalKey == c ==> xs[j].timerId < 0)
            && (forall j | 0 <= j < |xs| :: j < i || xs[j].option.finalKey != c ==> xs[j] == h.subscribers[j])
    decreases |h.subscribers| - i
  {
    if i < |h.subscribers| {
      if h.subscribers[i].timerId >= 0 && h.subscribers[i].option.finalKey == c {
        ClearKeyClears(Subscribers.Cleared(h, s, i), Clear(h.subscribers[i], s, h.hasEventExecuting).sched, c, i + 1);
      } else {
        ClearKeyClears(h, s, c, i + 1);
      }
    }
  }

  lemma ConsumeOneSilences(w: World, stroke: Stroke, c: int)
    ensures var r := ConsumeOne(w, stroke);
            stroke.keyCode == c || Silenced(w.k, w.h.subscribers, c) ==> Silenced(r.k, r.h.subscribers, c)
  {
    ClearKeyClears(w.h, w.s, stroke.keyCode, 0);
  }

  lemma {:induction false} ConsumeSilences(w: World, keys: seq<Pressed>, c: int)
    ensures var r := Consume(w, keys);
            Silenced(w.k, w.h.subscribers, c) || (exists i :: 0 <= i < |keys| && keys[i].stroke.keyCode == c)
            ==> Silenced(r.k, r.h.subscribers, c)
    decreases |keys|
  {
    if keys != [] {
      ConsumeOneSilences(w, keys[0].stroke, c);
      ConsumeSilences(ConsumeOne(w, keys[0].stroke), keys[1..], c);
      if i :| 0 < i < |keys| && keys[i].stroke.keyCode == c { assert keys[1..][i - 1].stroke.keyCode == c; }
    }
  }

  /** Stroke `s` occurs and the opposite stroke `t` does not follow it. */
  predicate EndsWith(ss: seq<Stroke>, s: Stroke, t: Stroke) {
    exists i :: 0 <= i < |ss| && ss[i] == s && t !in ss[i + 1..]
  }

  lemma EndsWithFrom(ss: seq<Stroke>, s: Stroke, t: Stroke)
    requires ss != [] && EndsWith(ss, s, t)
    ensures EndsWith(ss[1..], s, t) || (ss[0] == s && t !in ss[1..])
  {
    var i :| 0 <= i < |ss| && ss[i] == s && t !in ss[i + 1..];
    if i > 0 {
      assert ss[1..][i - 1] == s && ss[1..][i..] == ss[i + 1..];
      assert EndsWith(ss[1..], s, t);
    }
  }

  /** A special key is noted after the launch exactly as its last stroke in the history left it. */
  lemma {:induction false} ConsumeNotes(w: World, keys: seq<Pressed>, c: int)
    requires IsSpecialDown(c)
    ensures var r := Consume(w, keys).k.specialKeys;
            var down, up := Stroke(c, ACTION_DOWN), Stroke(c, ACTION_UP);
            && (EndsWith(Told(keys), down, up) || (c in w.k.specialKeys && up !in Told(keys)) ==> c in r)
            && (EndsWith(Told(keys), up, down) || (c !in w.k.specialKeys && down !in Told(keys)) ==> c !in r)
    decreases |keys|
  {
    if keys != [] {
      var down, up := Stroke(c, ACTION_DOWN), Stroke(c, ACTION_UP);
      ConsumeNotes(ConsumeOne(w, keys[0].stroke), keys[1..], c);
      assert Told(keys) == [keys[0].stroke] + Told(keys[1..]) && Told(keys)[1..] == Told(keys[1..]);
      if EndsWith(Told(keys), down, up) { EndsWithFrom(Told(keys), down, up); }
      if EndsWith(Told(keys), up, down) { EndsWithFrom(Told(keys), up, down); }
    }
  }

  lemma {:induction false} ConsumeNotesNoOther(w: World, keys: seq<Pressed>, c: int)
    requires !IsSpecialDown(c)
    ensures c in Consume(w, keys).k.specialKeys <==> c in w.k.specialKeys
    decreases |keys|
  {
    if keys != [] { ConsumeNotesNoOther(ConsumeOne(w, keys[0].stroke), keys[1..], c); }
  }

  /** When an event launches a sequence, every key of the history is taken from the others: none
      of its delayed events is pending any more, no subscriber to it has a timer, and of the
      volume and power keys those the history leaves pressed are noted, so that the events that
      follow for them are swallowed until their release. */
  lemma LaunchSilences(w: World, e: KeyEvent, ticks: seq<nat>, c: int)
    requires WorldOk(w) && Sequences(w, e, ticks).1
    requires exists i :: 0 <= i < |Press(w.k.matcher, w.s, e, ticks).0.keys|
                         && Press(w.k.matcher, w.s, e, ticks).0.keys[i].stroke.keyCode == c
    ensures var r := Sequences(w, e, ticks).0;
            var told := Told(r.k.matcher.keys);
            var down, up := Stroke(c, ACTION_DOWN), Stroke(c, ACTION_UP);
            && WorldOk(r) && Keep(r.s.items, OfDelayed(c)) == [] && Silenced(r.k, r.h.subscribers, c)
            && (16 <= c <= 18 && EndsWith(told, down, up) ==> c in r.k.specialKeys)
            && (16 <= c <= 18 && EndsWith(told, up, down) ==> c !in r.k.specialKeys)
            && (c < 16 || c > 18 ==> (c in r.k.specialKeys <==> c in w.k.specialKeys))
  {
    var (m, s, launched) := Press(w.k.matcher, w.s, e, ticks);
    var w1 := World(w.k.(matcher := m), w.h, s);
    var r := Consume(w1, m.keys);
    SequencesStepOk(w, e, ticks);
    ConsumeKeepsMatcher(w1, m.keys);
    ConsumeSilences(w1, m.keys, c);
    if IsSpecialDown(c) { ConsumeNotes(w1, m.keys, c); } else { ConsumeNotesNoOther(w1, m.keys, c); }
    NoneListed(r, c);
  }

  lemma NoneListed(w: World, c: int)
    requires WorldOk(w) && Listed(w.k, c) == []
    ensures Keep(w.s.items, OfDelayed(c)) == []
  {
    assert Ids(Keep(w.s.items, OfDelayed(c))) == [];
  }

  lemma {:induction false} ConsumeKeepsMatcher(w: World, keys: seq<Pressed>)
    ensures Consume(w, keys).k.matcher == w.k.matcher
    decreases |keys|
  {
    if keys != [] {
      ConsumeKeepsMatcher(ConsumeOne(w, keys[0].stroke), keys[1..]);
    }
  }

  // ---------- how long a special key stays noted ----------

  /** While a key is noted its events reach neither the delay line nor the subscribers.  Unless a
      sequence is launched it is forgotten exactly by an event of that key which no shortcut takes
      and whose input action, whatever its key action, is that of a release. */
  lemma NotedUntilRelease(w: World, e: KeyEvent, ticks: Ticks, c: int)
    requires c in w.k.specialKeys
    requires var (k1, s1, byShortcut) := ShortKeys(w.k, w.s, e, ticks.shortcut);
             !Sequences(w.(k := k1, s := s1), e, ticks.sequences).1
    ensures var byShortcut := ShortKeys(w.k, w.s, e, ticks.shortcut).2;
            var (r, handled) := OnHandleEvent(w, e, ticks);
            && (c !in r.k.specialKeys <==> e.keyCode == c && !byShortcut && e.inputAction == ACTION_UP)
            && (e.keyCode == c ==> handled && Listed(r.k, c) == Listed(w.k, c) && OnKeyEvent(w, e, ticks).h == w.h)
  {
  }
}
