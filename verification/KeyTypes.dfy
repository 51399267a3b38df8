/** Key events, the configured shortcuts and sequences, and what a timer may be armed for. */
module KeyTypes {
  import opened Options

  const KEYCODE_VOLUME_UP := 16
  const KEYCODE_VOLUME_DOWN := 17
  const KEYCODE_POWER := 18
  const ACTION_CANCEL := 1
  const ACTION_DOWN := 2
  const ACTION_UP := 3

  datatype KeyItem = KeyItem(keyCode: int, pressed: bool, downTime: int)

  /** The fields of a key event that are used: `action` is the key action, `inputAction` the
      action of the input event it extends. */
  datatype KeyEvent = KeyEvent(keyCode: int, action: int, inputAction: int, actionTime: int, items: seq<KeyItem>)

  function Codes(e: KeyEvent): seq<int> {
    seq(|e.items|, i requires 0 <= i < |e.items| => e.items[i].keyCode)
  }

  function PressedOf(items: seq<KeyItem>): seq<int> {
    if items == [] then []
    else if items[0].pressed then [items[0].keyCode] + PressedOf(items[1..])
    else PressedOf(items[1..])
  }

  /** The event's own key item: the first one with its key code. */
  function OwnItem(items: seq<KeyItem>, keyCode: int): Option<KeyItem> {
    if items == [] then None
    else if items[0].keyCode == keyCode then Some(items[0])
    else OwnItem(items[1..], keyCode)
  }

  /** How far the clock moves before its i-th reading. */
  function Tick(ticks: seq<nat>, i: nat): nat { if i < |ticks| then ticks[i] else 0 }

  /** A key going up or down. */
  datatype Stroke = Stroke(keyCode: int, action: int)

  /** One step of a configured sequence; a nonzero `delay` (the parser accepts no negative one) bounds the time to the next step. */
  datatype SequenceKey = SequenceKey(stroke: Stroke, delay: nat)

  datatype SequenceConfig = SequenceConfig(sequenceKeys: seq<SequenceKey>, abilityStartDelay: int, ability: string)

  /** A sequence that launches its ability after a delay.  One without delay would launch from
      inside the loop over the candidates, which the launch clears; it is not modelled. */
  type Sequence = c: SequenceConfig | c.abilityStartDelay > 0 witness SequenceConfig([], 1, "")

  datatype ShortcutKey = ShortcutKey(
    preKeys: set<int>, finalKey: int, keyDownDuration: nat, triggerType: int, ability: string)

  /** A shortcut as the parser accepts it: triggered by a key going down or up. */
  type Shortcut = k: ShortcutKey | k.triggerType == ACTION_DOWN || k.triggerType == ACTION_UP
    witness ShortcutKey({}, 0, 0, ACTION_DOWN, "")

  /** What a timer does when it fires.  `Notify` carries the subscriber, the event that armed
      it and the number of events processed before that one; `Other` stands for every timer
      of another component. */
  datatype Callback =
    | LaunchShortcut(shortcut: ShortcutKey)
    | LaunchSequence(sequence: Sequence)
    | DelayedKey(event: KeyEvent)
    | Notify(subscriber: nat, armedBy: KeyEvent, at: nat)
    | Other(purpose: int)

  function Strokes(ks: seq<SequenceKey>): seq<Stroke> {
    seq(|ks|, i requires 0 <= i < |ks| => ks[i].stroke)
  }

  /** Successive strokes of one key code differ in action. */
  ghost predicate Alternates(ss: seq<Stroke>) {
    forall i, j | 0 <= i < j < |ss| && ss[i].keyCode == ss[j].keyCode && Untouched(ss, i, j) ::
      ss[i].action != ss[j].action
  }

  /** The key code of stroke `j` does not occur strictly between `i` and `j`. */
  ghost predicate Untouched(ss: seq<Stroke>, i: int, j: int)
    requires 0 <= i < j < |ss|
  {
    forall k | i < k < j :: ss[k].keyCode != ss[j].keyCode
  }

  /** The latest stroke of the same key code had the same action. */
  predicate Repeats(ss: seq<Stroke>, s: Stroke) {
    if ss == [] then false
    else if ss[|ss| - 1].keyCode == s.keyCode then ss[|ss| - 1].action == s.action
    else Repeats(ss[..|ss| - 1], s)
  }

  lemma {:induction false} RepeatsMeans(ss: seq<Stroke>, s: Stroke)
    ensures Repeats(ss, s) <==>
              exists i :: 0 <= i < |ss| && ss[i] == s && Untouched(ss + [s], i, |ss|)
  {
    if ss != [] {
      var n := |ss| - 1;
      var init := ss[..n];
      if ss[n].keyCode == s.keyCode {
        if ss[n].action == s.action {
          assert (ss + [s])[n] == s && Untouched(ss + [s], n, |ss|);
        } else {
          forall i | 0 <= i < |ss| && ss[i] == s ensures !Untouched(ss + [s], i, |ss|) {
            assert i < n && (ss + [s])[n].keyCode == s.keyCode;
          }
        }
      } else {
        RepeatsMeans(init, s);
        if Repeats(init, s) {
          var i :| 0 <= i < n && init[i] == s && Untouched(init + [s], i, n);
          forall k | i < k < |ss| ensures (ss + [s])[k].keyCode != s.keyCode {
            if k < n { assert (init + [s])[k] == ss[k]; }
          }
          assert ss[i] == s && Untouched(ss + [s], i, |ss|);
        } else {
          forall i | 0 <= i < |ss| && ss[i] == s ensures !Untouched(ss + [s], i, |ss|) {
            assert init[i] == s && !Untouched(init + [s], i, n);
            var k :| i < k < n && (init + [s])[k].keyCode == s.keyCode;
            assert (ss + [s])[k].keyCode == s.keyCode;
          }
        }
      }
    }
  }

  /** Appending a stroke keeps the alternation exactly when it does not repeat. */
  lemma AlternatesSnoc(ss: seq<Stroke>, s: Stroke)
    ensures Alternates(ss + [s]) <==> Alternates(ss) && !Repeats(ss, s)
  {
    var t := ss + [s];
    var n := |ss|;
    RepeatsMeans(ss, s);
    forall i, j | 0 <= i < j < n ensures Untouched(t, i, j) <==> Untouched(ss, i, j) {
      forall k | i < k < j ensures t[k] == ss[k] {}
    }
    if Alternates(t) {
      forall i, j | 0 <= i < j < n && ss[i].keyCode == ss[j].keyCode && Untouched(ss, i, j) ensures ss[i].action != ss[j].action {
        assert t[i].action != t[j].action;
      }
    } else if Alternates(ss) {
      var i, j :| 0 <= i < j < |t| && t[i].keyCode == t[j].keyCode && Untouched(t, i, j) && t[i].action == t[j].action;
      assert j == n && ss[i] == s;
    }
  }
}
