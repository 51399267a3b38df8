/** KeyCommandHandler with its fields and the shared timer manager changed in place; the
    methods are proved against the functions of KeySequences and KeyCommands. */
module KeyCommandHandlerClass {
  import opened Options
  import opened KeyTypes
  import opened KeySequences
  import opened KeyCommands
  import opened TimerManagerClass
  import opened KeySubscriberHandlerClass

  class KeyCommandHandler {
    const timers: TimerManager<Callback>
    const subscriberHandler: KeySubscriberHandler
    const shortcutKeys: seq<Shortcut>
    const sequences: seq<Sequence>
    var lastMatchedKey: ShortcutKey
    var lastTimerId: int
    var filterSequences: seq<Candidate>
    var keys: seq<Pressed>
    var specialKeys: set<int>
    var specialTimers: map<int, seq<int>>
    var launched: seq<string>

    function View(): KeyCommand
      reads this
    {
      KeyCommand(shortcutKeys, Matching(), lastMatchedKey, lastTimerId, specialKeys, specialTimers, launched)
    }

    function Matching(): Matcher
      reads this
    {
      Matcher(sequences, keys, filterSequences)
    }

    /** This handler, the subscribers and the timers they share. */
    function All(): World
      reads this, subscriberHandler, timers
    {
      World(View(), subscriberHandler.View(), timers.View())
    }

    constructor (subscriberHandler: KeySubscriberHandler, shortcutKeys: seq<Shortcut>, sequences: seq<Sequence>)
      ensures this.subscriberHandler == subscriberHandler && timers == subscriberHandler.timers
      ensures this.shortcutKeys == shortcutKeys && this.sequences == sequences
      ensures Matching() == Matcher(sequences, [], []) && lastTimerId == -1 && lastMatchedKey.finalKey == -1 && specialTimers == map[]
    {
      this.subscriberHandler, timers := subscriberHandler, subscriberHandler.timers;
      this.shortcutKeys, this.sequences := shortcutKeys, sequences;
      lastMatchedKey, lastTimerId := ShortcutKey({}, -1, 0, ACTION_DOWN, ""), -1;
      filterSequences, keys, specialKeys, specialTimers, launched := [], [], {}, map[], [];
    }

    method IsRepeatKeyEvent(stroke: Stroke) returns (repeated: bool)
      ensures repeated == Repeats(Told(keys), stroke)
    {
      var i := |keys|;
      assert Told(keys)[..i] == Told(keys);
      while i > 0
        invariant 0 <= i <= |keys|
        invariant Repeats(Told(keys), stroke) == Repeats(Told(keys)[..i], stroke)
      {
        assert Told(keys)[..i][..i - 1] == Told(keys)[..i - 1];
        if keys[i - 1].stroke.keyCode == stroke.keyCode {
          return keys[i - 1].stroke.action == stroke.action;
        }
        i := i - 1;
      }
      return false;
    }

    method InterruptTimers()
      modifies this`filterSequences, timers
      ensures (filterSequences, timers.View()) == Interrupt(old(filterSequences), old(timers.View()))
    {
      var done: seq<Candidate> := [];
      assert filterSequences[0..] == filterSequences;
      assert done + Interrupt(filterSequences, timers.View()).0 == Interrupt(filterSequences, timers.View()).0;
      for i := 0 to |filterSequences|
        invariant filterSequences == old(filterSequences)
        invariant |done| == i
        invariant var rest := Interrupt(filterSequences[i..], timers.View());
                  Interrupt(old(filterSequences), old(timers.View())) == (done + rest.0, rest.1)
      {
        var item := filterSequences[i];
        assert filterSequences[i..][1..] == filterSequences[i + 1..];
        ghost var rest := Interrupt(filterSequences[i..], timers.View());
        if item.timerId >= 0 {
          var _ := timers.RemoveTimer(item.timerId);
          item := item.(timerId := -1);
        }
        assert rest.0 == [item] + Interrupt(filterSequences[i + 1..], timers.View()).0;
        assert done + rest.0 == (done + [item]) + Interrupt(filterSequences[i + 1..], timers.View()).0;
        done := done + [item];
      }
      assert filterSequences[|filterSequences|..] == [] && done + [] == done;
      filterSequences := done;
    }

    method ResetSequenceKeys()
      modifies this`keys, this`filterSequences
      ensures Matching() == Cleared(old(Matching()))
    {
      keys := [];
      filterSequences := [];
    }

    method AddSequenceKey(e: KeyEvent) returns (recorded: bool)
      modifies this`keys, this`filterSequences, timers
      ensures (Matching(), timers.View(), recorded) == Record(old(Matching()), old(timers.View()), e)
    {
      var sequenceKey := Pressed(Stroke(e.keyCode, e.action), e.actionTime, 0);
      var size := |keys|;
      if size > 0 {
        if keys[size - 1].time > sequenceKey.time {
          ResetSequenceKeys();
          return false;
        }
        if sequenceKey.time - keys[size - 1].time > MAX_DELAY_TIME {
          ResetSequenceKeys();
        } else {
          var repeated := IsRepeatKeyEvent(sequenceKey.stroke);
          if repeated {
            return false;
          }
          keys := keys[size - 1 := keys[size - 1].(delay := sequenceKey.time - keys[size - 1].time)];
          InterruptTimers();
        }
      }
      if size > MAX_SEQUENCEKEYS_NUM {
        return false;
      }
      assert [] + [sequenceKey] == [sequenceKey];
      keys := keys + [sequenceKey];
      return true;
    }

    method HandleSequence(item: Candidate, tick: nat) returns (after: Candidate, stays: bool, launches: bool)
      modifies timers
      ensures (after, stays, launches, timers.View()) == Attempt(item, keys, old(timers.View()), tick)
    {
      after, stays, launches := item, false, false;
      var steps := item.sequence.sequenceKeys;
      if |keys| > |steps| {
        return;
      }
      for i := 0 to |keys|
        invariant forall k | 0 <= k < i ::
                    && keys[k].stroke == steps[k].stroke
                    && (k + 1 != |keys| && steps[k].delay != 0 ==> keys[k].delay < steps[k].delay)
      {
        if keys[i].stroke != steps[i].stroke {
          return;
        }
        if i + 1 != |keys| && steps[i].delay != 0 && keys[i].delay >= steps[i].delay {
          return;
        }
      }
      stays := true;
      if |keys| == |steps| {
        var id := timers.AddTimer(item.sequence.abilityStartDelay / SECONDS_SYSTEM, 1,
                                  Some(LaunchSequence(item.sequence)), tick);
        after := item.(timerId := id);
        stays, launches := id >= 0, id >= 0;
      }
    }

    /** The loop of HandleSequences over the candidates. */
    method ScanCandidates(ticks: seq<nat>) returns (all: seq<Candidate>, stay: seq<Candidate>, launched: bool)
      modifies timers
      ensures Scanned(all, stay, launched, timers.View()) == Scan(filterSequences, keys, old(timers.View()), ticks, 0)
    {
      all, stay, launched := [], [], false;
      for i := 0 to |filterSequences|
        invariant var rest := Scan(filterSequences[i..], keys, timers.View(), ticks, i);
                  Scan(filterSequences, keys, old(timers.View()), ticks, 0)
                  == Scanned(all + rest.all, stay + rest.stay, launched || rest.launched, rest.sched)
      {
        assert filterSequences[i..][1..] == filterSequences[i + 1..];
        ghost var rest := Scan(filterSequences[i..], keys, timers.View(), ticks, i);
        var tick := Tick(ticks, i);
        var after, stays, launches := HandleSequence(filterSequences[i], tick);
        ghost var next := Scan(filterSequences[i + 1..], keys, timers.View(), ticks, i + 1);
        assert all + rest.all == (all + [after]) + next.all;
        all := all + [after];
        if stays {
          assert stay + rest.stay == (stay + [after]) + next.stay;
          stay := stay + [after];
        }
        launched := launched || launches;
      }
    }

    /** HandleSequences up to the effects of a launch on other components. */
    method MatchSequences(e: KeyEvent, ticks: seq<nat>) returns (launched: bool)
      modifies this`keys, this`filterSequences, timers
      ensures (Matching(), timers.View(), launched) == Press(old(Matching()), old(timers.View()), e, ticks)
    {
      if |sequences| == 0 {
        return false;
      }
      var recorded := AddSequenceKey(e);
      if !recorded {
        return false;
      }
      ghost var m1 := Matching();
      if |filterSequences| == 0 {
        filterSequences := Fresh(sequences);
      }
      assert filterSequences == Candidates(m1);
      var all, stay, found := ScanCandidates(ticks);
      filterSequences := if |stay| == 0 then all else stay;
      launched := found;
    }

    method ResetLastMatchedKey()
      modifies this`lastMatchedKey, this`lastTimerId
      ensures View() == ResetLast(old(View()))
    {
      lastMatchedKey := lastMatchedKey.(preKeys := {}, finalKey := -1, keyDownDuration := 0);
      lastTimerId := -1;
    }

    method LaunchAbility(key: ShortcutKey)
      modifies this`lastMatchedKey, this`lastTimerId, this`launched
      ensures View() == Launch(old(View()), key)
    {
      launched := launched + [key.ability];
      ResetLastMatchedKey();
    }

    method HandleShortKeys(e: KeyEvent, tick: nat) returns (handled: bool)
      modifies this`lastMatchedKey, this`lastTimerId, this`launched, timers
      ensures (View(), timers.View(), handled) == ShortKeys(old(View()), old(timers.View()), e, tick)
    {
      if |shortcutKeys| == 0 {
        return false;
      }
      if Shortcuts.IsKeyMatch(lastMatchedKey, e) {
        return true;
      }
      if lastTimerId >= 0 {
        var _ := timers.RemoveTimer(lastTimerId);
      }
      ResetLastMatchedKey();
      var i := 0;
      while i < |shortcutKeys| && !Shortcuts.IsKeyMatch(shortcutKeys[i], e)
        invariant i <= |shortcutKeys|
        invariant FirstMatch(shortcutKeys, e) == FirstMatch(shortcutKeys[i..], e)
      {
        assert shortcutKeys[i..][1..] == shortcutKeys[i + 1..];
        i := i + 1;
      }
      if i == |shortcutKeys| {
        return false;
      }
      assert shortcutKeys[i..][0] == shortcutKeys[i];
      var shortcutKey := shortcutKeys[i];
      if shortcutKey.keyDownDuration == 0 {
        LaunchAbility(shortcutKey);
        return true;
      }
      if shortcutKey.triggerType == ACTION_DOWN {
        var id := timers.AddTimer(shortcutKey.keyDownDuration, 1, Some(LaunchShortcut(shortcutKey)), tick);
        if id < 0 {
          return false;
        }
        lastMatchedKey, lastTimerId := shortcutKey, id;
        return true;
      }
      var own := OwnItem(e.items, e.keyCode);
      if own.None? || e.actionTime - own.value.downTime >= shortcutKey.keyDownDuration * 1000 {
        return false;
      }
      LaunchAbility(shortcutKey);
      return true;
    }

    method RemoveSubscribedTimer(keyCode: int)
      modifies this`specialTimers, timers
      ensures (View(), timers.View()) == DropDelayed(old(View()), old(timers.View()), keyCode)
    {
      if keyCode in specialTimers {
        var ids := specialTimers[keyCode];
        assert ids[0..] == ids && ids[|ids|..] == [];
        for i := 0 to |ids|
          invariant specialTimers == old(specialTimers)
          invariant RemoveAll(old(timers.View()), ids) == RemoveAll(timers.View(), ids[i..])
        {
          assert ids[i..][1..] == ids[i + 1..];
          var _ := timers.RemoveTimer(ids[i]);
        }
        specialTimers := specialTimers - {keyCode};
      } else {
        assert specialTimers - {keyCode} == specialTimers;
      }
    }

    method HandleSpecialKeys(keyCode: int, keyAction: int)
      modifies this`specialKeys
      ensures specialKeys == SpecialKeys(old(specialKeys), keyCode, keyAction)
    {
      if keyAction == ACTION_UP {
        if keyCode in specialKeys {
          specialKeys := specialKeys - {keyCode};
          return;
        }
        assert specialKeys - {keyCode} == specialKeys;
      }
      if keyAction == ACTION_DOWN {
        if keyCode !in specialKeys {
          specialKeys := specialKeys + {keyCode};
        } else {
          assert specialKeys + {keyCode} == specialKeys;
        }
      }
    }

    /** What a launch does for each key of the history. */
    method ConsumeKeys()
      requires timers == subscriberHandler.timers
      modifies this`specialKeys, this`specialTimers, subscriberHandler, timers
      ensures All() == Consume(old(All()), keys)
    {
      assert keys[0..] == keys && keys[|keys|..] == [];
      for i := 0 to |keys|
        invariant Consume(All(), keys[i..]) == Consume(old(All()), keys)
        invariant keys == old(keys)
      {
        assert keys[i..][0] == keys[i] && keys[i..][1..] == keys[i + 1..];
        var item := keys[i].stroke;
        ghost var before := All();
        if IsSpecialDown(item.keyCode) {
          HandleSpecialKeys(item.keyCode, item.action);
        }
        subscriberHandler.RemoveSubscriberKeyUpTimer(item.keyCode);
        RemoveSubscribedTimer(item.keyCode);
        assert All() == ConsumeOne(before, item);
      }
    }

    method HandleSequences(e: KeyEvent, ticks: seq<nat>) returns (launched: bool)
      requires timers == subscriberHandler.timers
      modifies this, subscriberHandler, timers
      ensures (All(), launched) == Sequences(old(All()), e, ticks)
    {
      launched := MatchSequences(e, ticks);
      if launched {
        ConsumeKeys();
      }
    }

    method OnHandleEvent(e: KeyEvent, ticks: Ticks) returns (handled: bool)
      requires timers == subscriberHandler.timers
      modifies this, subscriberHandler, timers
      ensures (All(), handled) == KeyCommands.OnHandleEvent(old(All()), e, ticks)
    {
      var byShortcut := HandleShortKeys(e, ticks.shortcut);
      var bySequence := HandleSequences(e, ticks.sequences);
      if byShortcut || bySequence {
        return true;
      }
      if e.keyCode in specialKeys {
        HandleSpecialKeys(e.keyCode, e.inputAction);
        return true;
      }
      if IsDelayedKey(e.keyCode) {
        handled := DelayKey(e, ticks.delay);
        return;
      }
      return false;
    }

    /** HandleKeyEvent: what the key commands leave goes on to the subscribers. */
    method HandleKeyEvent(e: KeyEvent, ticks: Ticks)
      requires timers == subscriberHandler.timers && WorldOk(All())
      modifies this, subscriberHandler, timers
      ensures All() == OnKeyEvent(old(All()), e, ticks) && WorldOk(All())
    {
      OnKeyEventOk(All(), e, ticks);
      var handled := OnHandleEvent(e, ticks);
      if !handled {
        var _ := subscriberHandler.OnSubscribeKeyEvent(e, ticks.subscribers);
      }
    }

    /** The volume-key part of OnHandleEvent. */
    method DelayKey(e: KeyEvent, tick: nat) returns (ok: bool)
      modifies this`specialTimers, timers
      ensures forall h :: (World(View(), h, timers.View()), ok) == Delay(World(old(View()), h, old(timers.View())), e, tick)
    {
      var id := timers.AddTimer(SPECIAL_KEY_DOWN_DELAY, 1, Some(DelayedKey(e)), tick);
      if id < 0 {
        return false;
      }
      if e.keyCode !in specialTimers {
        specialTimers := specialTimers[e.keyCode := [id]];
        assert [] + [id] == [id];
      } else {
        specialTimers := specialTimers[e.keyCode := specialTimers[e.keyCode] + [id]];
      }
      return true;
    }
  }
}
